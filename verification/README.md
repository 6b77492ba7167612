# TermLogger core, modelled in Dafny

TermLogger is a terminal logbook for amateur-radio contacts (QSOs). This project models
three self-contained parts of it and proves properties of them:

- **Bands and records** (`models.dfy`, module `Models`): the band table and the
  first-match search `frequency_to_band`, the field constraints of a `QSO` record and its
  derived band, and the two display strings of a callsign lookup result
  (`location_str`, `display_str`).
- **The spot list widget** (`spots.dfy`, module `Spots`): the class `SpotsTable`. It holds a
  newest-first list of spots capped at 100 on insertion. It also holds the sub-list that
  passes a band filter and a mode filter, two filter selectors that cycle through fixed
  lists, and the header line that summarises them.
- **Callsign lookup** (`callsign.dfy`, module `Callsign`): the class
  `CallsignLookupService`. It normalises a callsign, answers from a cache, and creates the
  provider lazily from the configuration. It caches only answers that found a record. The
  module also holds the helpers that read text out of a provider's XML reply.

`prelude.dfy` holds `Option` and `Result`. `strings.dfy` models the Python string
operations the core uses: `upper`, `strip`, `join`, `split` with a one-character
separator, and decimal rendering of counts.

Modelling choices:
- Frequencies are integer hertz. The source stores floating-point megahertz. Every band
  edge is a whole number of kilohertz, so the edges and every frequency written with at
  most six decimals of a megahertz are exact.
- A provider's network lookup is an oracle `ask(provider, callsign)`. It returns a record
  (`Found`), nothing (`NotFound`) or a lookup error (`Failed`). A ghost log `queries`
  records every question put to a provider, so the contracts can say when the provider
  is not asked.
- An XML element is modelled as the sequence of its children, each a tag with optional
  text. `find(tag)` is the first child with that tag.
- The header widget's text is the field `header`. Every method that calls
  `_update_header` in the source re-establishes `header == CurrentHeader()`.

## Model

| member | source | states |
|---|---|---|
| `Models.FirstBandContaining` | src/termlogger/models.py:64-67 | a band found is in the search order and holds the frequency; `None` means no band of the order holds it |
| `Models.BandName` | src/termlogger/models.py:26-41 | definition: the string value of each member of the band enumeration |
| `Models.Edges` | src/termlogger/models.py:44-59 | the band frequency table, in hertz, with the search order as the constant `BandOrder`; every band is a non-empty range of positive frequencies |
| `Models.FrequencyToBand` | src/termlogger/models.py:62-67 | a returned band holds the frequency; `None` only when no band holds it |
| `Models.BandOrderAscending` | src/termlogger/models.py:45-59 | every band of the table lies wholly below every band listed after it |
| `Models.BandsDisjoint` | src/termlogger/models.py:45-59 | no frequency lies in two bands |
| `Models.FrequencyToBandExact` | src/termlogger/models.py:62-67 | `frequency_to_band(f) == b` exactly when low(b) <= f <= high(b), both edges included |
| `Models.SearchOrderIrrelevant` | src/termlogger/models.py:64-66 | searching the table in any order that lists every band gives the same answer |
| `Models.TwentyMetres` | src/termlogger/models.py:51 | 14.250 MHz is on 20 m |
| `Models.OutsideEveryBand` | src/termlogger/models.py:62-67 | 2.5 MHz and every frequency above 450 MHz give `None` |
| `Models.NoBandHolds` | src/termlogger/models.py:45-59 | no band of the table holds 2.5 MHz or any frequency above 450 MHz |
| `Models.Qso.BandOf` | src/termlogger/models.py:139-142 | a QSO's band is `b` exactly when its frequency lies in `b` |
| `Models.QsoValid` | src/termlogger/models.py:75-81 | definition: the field constraints of the record (callsign 1 to 15 characters, frequency above 0, each RST at most 5 characters, notes at most 500) |
| `Models.Violations` | src/termlogger/models.py:75-81 | definition: the fields whose constraint a record breaks, in declaration order |
| `Models.Validate` | src/termlogger/models.py:75-81 | a record is accepted exactly when 1 <= len(callsign) <= 15, frequency > 0, both RSTs have at most 5 characters and notes at most 500; otherwise it lists exactly the violated fields |
| `Models.NewQsoValidation` | src/termlogger/models.py:74-81 | with the default mode, RSTs and notes, only the callsign and frequency can be rejected, and the errors name exactly those |
| `Models.CallsignLookupResult.LocationParts` | src/termlogger/models.py:184-190 | one part for each present, non-empty field among city, state and country: the city first when present, then the state, with the country last |
| `Models.CallsignLookupResult.LocationStr` | src/termlogger/models.py:181-191 | with one, two or three present parts it is the single part, "p1, p2" or "p1, p2, p3", commas inside a part included; it reads "Unknown" exactly when no part is present or the only present part is itself "Unknown"; when no part holds a comma, splitting it at its commas gives back the parts, each after the first preceded by a space |
| `Models.JoinedLocationUnknown` | src/termlogger/models.py:191 | parts joined with ", " read "Unknown" only when the single part is "Unknown" |
| `Models.JoinedLocationSplits` | src/termlogger/models.py:191 | splitting comma-free parts joined with ", " at the commas gives back the parts, each after the first preceded by a space |
| `Models.CallsignLookupResult.DisplayParts` | src/termlogger/models.py:196-202 | one part for each of a present name, a location other than "Unknown" and a present grid square: the name first, the location after it, and the bracketed grid square last |
| `Models.CallsignLookupResult.DisplayStr` | src/termlogger/models.py:193-203 | each combination of name, location and grid square written out with the " - " separator (e.g. "Bob - Boston - [FN42]"); the name opens it, the bracketed grid square closes it, and with neither name, location nor grid square it reads "No information available" |
| `Spots.Filtered` | src/termlogger/widgets/spots_table.py:195-210 | the filtered list is never longer than the full list |
| `Spots.PassesBand` | src/termlogger/widgets/spots_table.py:200-203 | definition: "All", or the spot has a band whose string value equals the filter |
| `Spots.PassesMode` | src/termlogger/widgets/spots_table.py:205-208 | definition: "All", or the spot has a mode equal to the filter once both are upper-cased |
| `Spots.Passes` | src/termlogger/widgets/spots_table.py:199-210 | definition: a spot is kept when it passes both filters |
| `Spots.FilteredIsSubsequence` | src/termlogger/widgets/spots_table.py:199-210 | the filtered list is an order-preserving subsequence of the full list |
| `Spots.FilteredMembers` | src/termlogger/widgets/spots_table.py:199-210 | a spot is in the filtered list exactly when it is in the full list and passes both filters |
| `Spots.FilteredAllIsIdentity` | src/termlogger/widgets/spots_table.py:199-210 | with both filters at "All" the filtered list is the full list |
| `Spots.MissingFieldsFailFilters` | src/termlogger/widgets/spots_table.py:201-208 | a spot with no band fails every band filter but "All"; a spot with no mode fails every mode filter but "All" |
| `Spots.ModeFilterIgnoresCase` | src/termlogger/widgets/spots_table.py:206-208 | two mode filters that differ only in letter case pass the same spots |
| `Spots.UnlistedBandsOnlyUnderAll` | src/termlogger/widgets/spots_table.py:201-203 | spots on 60 m or 70 cm pass no band-filter value of the cycle list except "All", since the list has no entry for them |
| `Spots.FilteredPrepend` | src/termlogger/widgets/spots_table.py:221-227 | filtering a list with a spot in front gives that spot (if it passes) followed by the filter of the rest |
| `Spots.FilteredPrefix` | src/termlogger/widgets/spots_table.py:225-227 | filtering a truncated list gives a prefix of filtering the whole list |
| `Spots.NewestFirst` | src/termlogger/widgets/spots_table.py:221-226 | the new spot is first, the length is min(old + 1, 100), and the remaining spots are a prefix of the old list in the same order |
| `Spots.NewestFirstFiltered` | src/termlogger/widgets/spots_table.py:221-227 | after adding a spot, the filtered list is a prefix of the new spot (if it passes) followed by the old filtered list |
| `Spots.IndexOf` | src/termlogger/widgets/spots_table.py:137 | `list.index` on a present value: its first position. Python raises for an absent value; the model returns the length there instead, and both call sites (lines 137 and 145) guard the call with `in`, so that case is never reached |
| `Spots.NextFilter` | src/termlogger/widgets/spots_table.py:137-139 | the filter value after one press is always a value of the list |
| `Spots.NextFilterAt` | src/termlogger/widgets/spots_table.py:135-139 | one press moves from position i to i + 1, wrapping from the last entry to the first |
| `Spots.NextFilterUnrecognised` | src/termlogger/widgets/spots_table.py:137-139 | a value not in the list is treated as position 0 |
| `Spots.CycledAt` | src/termlogger/widgets/spots_table.py:135-149 | k presses from position i land on position i + k, wrapped once, for k up to the list length |
| `Spots.CycleReturns` | src/termlogger/widgets/spots_table.py:135-149 | pressing as many times as the list is long returns to the starting value |
| `Spots.FilterListsDistinct` | src/termlogger/widgets/spots_table.py:14-18 | both filter lists start with "All" and repeat no value |
| `Spots.BandFilterWrapsToAll` | src/termlogger/widgets/spots_table.py:135-139 | from "2m", the last band filter, one press gives "All" |
| `Spots.ModeFilterWrapsToAll` | src/termlogger/widgets/spots_table.py:143-147 | from "DIGITAL", the last mode filter, one press gives "All" |
| `Spots.FilterLabelNamesActiveFilters` | src/termlogger/widgets/spots_table.py:185-191 | when a filter is active, the header's filter label splits at "+" into exactly the active filters, band first |
| `Spots.FilterValuesHaveNoPlus` | src/termlogger/widgets/spots_table.py:14-18 | no filter value contains "+", so the label above is unambiguous |
| `Spots.ActiveFilters` | src/termlogger/widgets/spots_table.py:185-189 | one entry per active filter: the band filter first when active, the mode filter last when active, and no entry is "All" |
| `Spots.HeaderText` | src/termlogger/widgets/spots_table.py:182-191 | the header always opens with the bold title and "[dim](" and closes with ")[/dim]" |
| `Spots.SpotsTable.constructor` | src/termlogger/widgets/spots_table.py:88-102 | empty lists, both filters "All", header showing the bold title; the title defaults to "Spots" |
| `Spots.SpotsTable.UpdateHeader` | src/termlogger/widgets/spots_table.py:175-191 | the header shows "(total)" with no filter active, otherwise "(shown/total F)" with F the active filters joined by "+" |
| `Spots.SpotsTable.ApplyFilters` | src/termlogger/widgets/spots_table.py:195-213 | the loop leaves exactly the filter of the full list, in order, and updates the header; nothing else changes |
| `Spots.SpotsTable.LoadSpots` | src/termlogger/widgets/spots_table.py:215-219 | the list becomes the given one with no cap, and the filtered list and header follow it |
| `Spots.SpotsTable.AddSpot` | src/termlogger/widgets/spots_table.py:221-227 | the list becomes `NewestFirst(spot, old list)`, and the filtered list and header follow it |
| `Spots.SpotsTable.ClearSpots` | src/termlogger/widgets/spots_table.py:229-234 | both lists become empty, the filters stay, and the header follows |
| `Spots.SpotsTable.CycleBandFilter` | src/termlogger/widgets/spots_table.py:135-141 | the band filter moves to its successor in the cycle list, and the filtered list and header follow |
| `Spots.SpotsTable.CycleModeFilter` | src/termlogger/widgets/spots_table.py:143-149 | the mode filter moves to its successor in the cycle list, and the filtered list and header follow |
| `Spots.SpotsTable.ResetFilters` | src/termlogger/widgets/spots_table.py:297-302 | both filters become "All" and the filtered list equals the full list; the spots and title are untouched, so a second call changes nothing |
| `Spots.SpotsTable.SetTitle` | src/termlogger/widgets/spots_table.py:292-295 | the title changes and the header follows |
| `Spots.SpotsTable.SpotCount` | src/termlogger/widgets/spots_table.py:282-290 | the shown count never exceeds the total count |
| `Spots.SpotsTable.TotalSpotCount` | src/termlogger/widgets/spots_table.py:287-290 | definition: the number of spots held, before filtering |
| `Spots.SpotsTable.SelectedSpot` | src/termlogger/widgets/spots_table.py:275-280 | a spot is returned exactly when the cursor is on a shown row, and then it is the shown spot at the cursor row; that spot is held and passes both filters |
| `Callsign.ProviderFor` | src/termlogger/callsign.py:318-338 | a provider exists exactly for QRZ XML or HamQTH with a non-empty username and password of that service, and it carries those credentials |
| `Callsign.NoProviderWithoutXmlService` | src/termlogger/callsign.py:320-336 | "none" and plain QRZ never give a provider |
| `Callsign.Normalize` | src/termlogger/callsign.py:345 | the cache key is the upper-cased form of one slice of the input, with only whitespace outside that slice; it is upper-case and neither end is whitespace |
| `Callsign.NormalizeIdempotent` | src/termlogger/callsign.py:345 | normalising a key again changes nothing |
| `Callsign.NormalizeIgnoresCase` | src/termlogger/callsign.py:345 | callsigns that differ only in case share a key |
| `Callsign.CallsignLookupService.constructor` | src/termlogger/callsign.py:313-316 | no provider and an empty cache |
| `Callsign.CallsignLookupService.GetProvider` | src/termlogger/callsign.py:318-338 | returns the provider the configuration calls for, creating it once and reusing it afterwards |
| `Callsign.CallsignLookupService.Lookup` | src/termlogger/callsign.py:340-364 | a blank key returns `None` and touches nothing; a cached key returns the cached record without asking the provider; otherwise the provider is asked once with the key, only a found record is cached, and a miss or lookup error returns `None` with the cache unchanged; keys are only ever added |
| `Callsign.CallsignLookupService.ClearCache` | src/termlogger/callsign.py:366-368 | the cache becomes empty and nothing else changes |
| `Callsign.CallsignLookupService.UpdateConfig` | src/termlogger/callsign.py:370-374 | the new configuration is taken, the provider dropped and the cache emptied |
| `Callsign.CallsignLookupService.Close` | src/termlogger/callsign.py:376-380 | the provider is released |
| `Callsign.LookupCallsign` | src/termlogger/callsign.py:384-392 | a one-off lookup returns a record exactly when the key is not blank, the configuration gives a provider and that provider finds a record, and then it is that record |
| `Callsign.FindChild` | src/termlogger/callsign.py:145 | the child found has the tag and no earlier child has it, so it is the first such child; none means no child has the tag |
| `Callsign.GetText` | src/termlogger/callsign.py:141-148 | the stripped text when the child has non-empty text, else the default when non-empty, else `None`; `None` exactly when both are missing |
| `Callsign.BlankTextReadsEmpty` | src/termlogger/callsign.py:146-147 | a child whose text is only whitespace reads as the empty string, not as `None` |
| `Callsign.GetFullName` | src/termlogger/callsign.py:160-171 | "fname name" with one space when both are present, otherwise whichever is present, otherwise `None`; never an empty string |
| `Strings.Upper` | src/termlogger/callsign.py:345 | definition: `str.upper` on ASCII, each letter mapped to its capital |
| `Strings.Strip` | src/termlogger/callsign.py:147 | `str.strip`: neither end of the result is whitespace, and it is no longer than the input (`Strings.StripKeepsSlice`: it is a slice with only whitespace outside) |
| `Strings.StripKeepsSlice` | src/termlogger/callsign.py:147 | what `strip` keeps is one slice of the input, and everything it drops is whitespace |
| `Strings.UpperStripKeepsSlice` | src/termlogger/callsign.py:345 | `upper().strip()` keeps the upper-cased form of one slice of the input, and everything outside it is whitespace |
| `Strings.Join` | src/termlogger/models.py:191 | definition: `sep.join(parts)` |
| `Strings.JoinOfFew` | src/termlogger/models.py:191 | `sep.join` of one, two or three parts written out: "a", "a" + sep + "b", "a" + sep + "b" + sep + "c" |
| `Strings.Split` | src/termlogger/widgets/spots_table.py:190 | `str.split` with a one-character separator, used to read a joined label back; always at least one piece |
| `Strings.SplitJoin` | src/termlogger/widgets/spots_table.py:190 | splitting a list joined with one character that no part contains gives the list back |
| `Strings.Decimal` | src/termlogger/widgets/spots_table.py:183-191 | an integer in an f-string: one or more decimal digits, with no leading zero |
| `Strings.DecimalRoundTrip` | src/termlogger/widgets/spots_table.py:183-191 | reading the digits back gives the integer |

## Left out

- The operating-mode scoring engine (contest, POTA and Field Day scoring, dupe rules, serial numbers, Cabrillo export). The source only imports it from a `modes` module, and that module is not part of this model.
- `src/termlogger/database.py`, `src/termlogger/config.py` file handling, and the UI screens and widgets other than the spot list's state. They are storage, file I/O and rendering.
- The providers' `authenticate` and `lookup` methods, their session re-authentication, `_get_float` and the HTTP client's `close`. These are network I/O, asynchronous code and XML parsing; the oracle `ask` stands in for them.
- The order of concurrent lookups. Python's `lookup` is asynchronous; the model runs each lookup to completion, so two lookups interleaved across their awaits are not modelled.
- `_refresh_table`, `_update_filter_buttons` (button labels and styles), `compose`, `on_mount` and the row-selected message. They render widgets; the header text is kept.
- Widget mounting. The model treats the widget as always mounted. Before mounting, the source behaves differently: `_update_header` and `_update_filter_buttons` swallow the failed widget query, but `_refresh_table` queries the table outside any `try` (src/termlogger/widgets/spots_table.py:238). So `_apply_filters`, `load_spots`, `add_spot`, `clear_spots`, the filter cycles and `reset_filters` raise if they are called before mounting.
- Aliasing in `load_spots`. The source keeps the caller's own list, so a later `add_spot` also changes the caller's list; the model holds the list as a value.
- Floating-point frequencies. The model uses integer hertz, so frequencies finer than 1 Hz are not represented.
- `QSO.time_str`, `QSO.date_str`, the timestamp fields, and the QSO's unconstrained optional metadata (ADIF station, QSL, propagation and power fields).
- Latitude and longitude of a lookup result.
- Non-ASCII text. `Strings.Upper` and `Strings.Strip` follow Python's `upper` and `strip` on ASCII only.
- The `Spot` record is not defined in the source shown; it is modelled as a record with an optional band and an optional mode string.
- `CallsignLookupService.Valid`: the invariant that an existing provider matches the configuration assumes the configuration changes only through `update_config`. Changing the shared configuration object in place is not modelled.
- `Contest` (src/termlogger/models.py:155-163) is a plain configuration record with no logic, and it is not modelled.
