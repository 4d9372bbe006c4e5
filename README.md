# Quick filter of the fossil-fuel dependency list

`solar.js` is a one-page React application. It lists the non-renewable energy sources
cities depend on. Each entry has a name, the reason it is common, a few issue tags and
example locations. A search box narrows the list. The narrowing is computed by the
`useMemo` callback of `App`:

- A query that is empty or only whitespace (`!query.trim()`) shows the whole list.
- Otherwise the query is lower-cased, but not trimmed, into `q`.
- Every entry is copied with its examples narrowed to those whose lower-cased text
  contains `q`.
- A copy stays in the list if `q` occurs in its lower-cased name, reason or one of its
  issues, or if any example survived the narrowing.

The project models that computation as pure functions and proves what it promises.

- `text.dfy` (module `Text`) models `trim`, ASCII `toLowerCase` and `includes`.
  It also holds the facts about them that the filter needs: trimming yields the empty
  string exactly on blank input, lower-casing ignores case and keeps blankness, and
  simple sufficient conditions for "contains" and "does not contain".
- `sequences.dfy` (module `Sequences`) models `Array.prototype.filter` as `FilterBy`.
  It proves that `FilterBy` is the unique order-preserving selection of exactly the
  elements that pass the test.
- `quickfilter.dfy` (module `QuickFilter`) holds the record type and the filter.
  - `Narrow` is the `.map` step and `Retained` the outer `.filter` test.
  - `Filter` is the whole callback.
  - `IsView` describes the result independently of how it is computed: the narrowed
    copies of the selected records, in their original order.
  - The filter is proved to compute that view, and the view is proved unique.
- `dataset.dfy` (module `Dataset`) holds the `nonRenewables` list (`icon` omitted). It
  also holds the per-text facts saying which texts mention "delhi", "generators",
  "coal" and " coal".
- `scenarios.dfy` (module `Scenarios`) works through two queries on the shipped list,
  the untrimmed-query effect and case-insensitivity.

In `dataset.dfy`, texts longer than a few words are written as concatenations of short
pieces, e.g. `"Large " + "existing " + "plants " + "supply many " + "cities."`. Each
concatenation spells the text of the source exactly. The many lemmas of the form
`<Query>In<Record><Field>` (the text mentions the query),
`No<Query>In<Record><Field>` (it does not), `...Piece`, `...Core` and `<Record>ExamplesUnder<Query>`
are helpers: each establishes one such fact about one text.

`trim` only decides whether a query is blank (solar.js:102). The text every match must
contain is the raw query, lower-cased (solar.js:103), so surrounding spaces take part in
the match. `Scenarios.RawQueryIsNotTrimmed` shows the consequence: `" coal"` is not
blank, yet it does not match the name "Coal-fired Power", although `"coal"` does.

## Model

| member | source | states |
|---|---|---|
| Text.IsWhitespace | solar.js:102 | The characters `trim` removes: ECMAScript's WhiteSpace and LineTerminator code points |
| Text.IsBlank | solar.js:102 | The queries on which `!query.trim()` holds (see Text.TrimEmptyIffBlank); a blank text is its own lower-case form |
| Text.Trim | solar.js:102 | The trimmed text is no longer than the input |
| Text.SkipSpace | solar.js:102 | The index of the first non-whitespace character at or after `i`; everything skipped is whitespace |
| Text.SkipSpaceBack | solar.js:102 | The end of the text once trailing whitespace is dropped; everything dropped is whitespace |
| Text.TrimEmptyIffBlank | solar.js:102 | `trim()` yields the empty string exactly when the query is empty or all whitespace, which is when `!query.trim()` holds |
| Text.TrimIsSlice | solar.js:102 | The trimmed text is a contiguous slice that neither starts nor ends with whitespace; everything outside it is whitespace |
| Text.LowerChar | solar.js:103 | Lower-casing maps `A`..`Z` to `a`..`z`, leaves every other character alone and never yields an upper-case ASCII letter |
| Text.Lower | solar.js:103 | `toLowerCase()` keeps the length of the text |
| Text.LowerIdempotent | solar.js:103 | Lower-casing a lower-cased text changes nothing |
| Text.LowerKeepsBlank | solar.js:102-103 | A query is blank exactly when its lower-cased form is blank |
| Text.SameLowerSameBlank | solar.js:102-103 | Queries with the same lower-case form are both blank or both not |
| Text.LowerAppend | solar.js:103 | Lower-casing distributes over concatenation |
| Text.Contains | solar.js:107-109 | `includes`: `q` occurs at some position of the text, so a text shorter than `q` never contains it |
| Text.ContainsEmpty | solar.js:107 | `includes("")` holds for every text |
| Text.ContainsInfix | solar.js:107 | A text with `q` in it contains `q` |
| Text.ContainsInAppend | solar.js:107 | A text contains whatever either of its parts contains |
| Text.OccurrenceChars | solar.js:107 | An occurrence of `q` puts each character of `q` at the matching position of the text |
| Text.NotContainsByChar | solar.js:107 | A text missing some character of `q` does not contain `q` |
| Text.PairFreeByMissing | solar.js:107 | A text missing `x` or `y` never has `x` right before `y` |
| Text.NotContainsByPair | solar.js:107 | A text in which two adjacent characters of `q` never appear adjacently does not contain `q` |
| Text.PairFreeAppend | solar.js:107 | Adjacent-pair freedom of a concatenation follows from that of its parts and of the seam |
| Sequences.FilterBy | solar.js:107-109 | `.filter` returns at most as many elements as it receives; each comes from the input and passes the test, and every passing input element is in it |
| Sequences.FilterBySelects | solar.js:107-109 | `.filter` takes its result at increasing positions, which are exactly the positions whose element passes the test |
| Sequences.ConsSelection | solar.js:107-109 | A selection from the tail of a sequence extends to a selection from the whole |
| Sequences.ConsIncreasing | solar.js:107-109 | Shifting increasing tail positions and prepending position 0 keeps them increasing |
| Sequences.ConsPositions | solar.js:107-109 | Shifted tail positions, with the head's position when the head passes, index the filtered result |
| Sequences.ShiftedPositions | solar.js:107-109 | Positions in the tail, shifted by one, address the same elements in the whole sequence |
| Sequences.ConsMembers | solar.js:107-109 | The shifted positions are exactly the passing positions of the whole sequence |
| Sequences.ShiftedMember | solar.js:107-109 | After shifting by one, 0 is no position, and `i` is one exactly when `i - 1` was |
| Sequences.IncreasingUnique | solar.js:107-109 | Two increasing index sequences with the same members are equal |
| Sequences.SelectionUnique | solar.js:107-109 | Any order-preserving selection of exactly the passing elements equals `.filter`'s result |
| Sequences.FilterByAll | solar.js:107-109 | `.filter` keeps a sequence whose every element passes the test unchanged |
| Sequences.FilterByIdempotent | solar.js:107-109 | Filtering twice by the same test is filtering once |
| Sequences.FilterByOne | solar.js:107-109 | When a single element passes, the result is that element alone |
| Sequences.FilterByFrom | solar.js:107-109 | `.filter` on a suffix keeps its first element exactly when it passes and filters the rest the same way |
| Sequences.FilterByFour | solar.js:104-109 | `.filter` on the four-entry list, element by element |
| Sequences.FilterByAppend | solar.js:107-109 | Filtering distributes over concatenation |
| Sequences.FilterByNone | solar.js:107-109 | When nothing passes, the result is empty |
| QuickFilter.Mentions | solar.js:107-109 | `text.toLowerCase().includes(q)`; a query longer than the text never matches |
| QuickFilter.Retained | solar.js:109 | The outer `.filter` test: name, reason or some issue mentions `q`, or some example survived (characterised by QuickFilter.RetainedIffSelected) |
| QuickFilter.Narrow | solar.js:105-108 | The copy keeps `name`, `whyCommon` and `issues`; each kept example is a source example that mentions `q`, and every source example that mentions `q` is kept |
| QuickFilter.NarrowAll | solar.js:104-108 | The `.map` step yields one copy per entry |
| QuickFilter.Filter | solar.js:101-110 | The filtered list is never longer than the list |
| QuickFilter.NarrowSelects | solar.js:107 | The narrowed examples are the order-preserving subsequence of exactly the source examples that mention `q` |
| QuickFilter.RetainedIffSelected | solar.js:105-109 | A copy survives exactly when the name, reason or an issue of its source mentions `q`, or some source example does |
| QuickFilter.BlankQueryIsIdentity | solar.js:102 | A blank query returns the list itself: same entries, same order, examples untouched |
| QuickFilter.FilterSelects | solar.js:101-110 | A non-blank query yields the narrowed copies of exactly the selected entries, at increasing positions, for the lower-cased raw query |
| QuickFilter.ViewUnique | solar.js:101-110 | Any order-preserving selection of the narrowed copies of exactly the selected entries is the filter's result |
| QuickFilter.ViewRecordsFromSource | solar.js:105-108 | Each result entry keeps the name, reason and issues of its source entry; its examples are exactly that entry's examples mentioning `q`, in order |
| QuickFilter.NameMatchIsKept | solar.js:109 | An entry whose lower-cased name contains `q` is always in the result, with its examples narrowed |
| QuickFilter.CaseInsensitive | solar.js:102-103 | Queries with the same lower-case form give the same result |
| QuickFilter.NarrowIdempotent | solar.js:105-108 | Narrowing a narrowed copy again changes nothing |
| QuickFilter.NarrowedStaysNarrowed | solar.js:104-108 | Every copy the `.map` step produces is already narrowed |
| QuickFilter.FilterIdempotent | solar.js:101-110 | Filtering the result again with the same query changes nothing |
| Dataset.CoalFiredUnderDelhi | solar.js:11-17 | For "delhi" the coal entry keeps only its Dadri example and is retained |
| Dataset.DieselGeneratorsUnderGenerators | solar.js:18-24 | For "generators" the generator entry keeps no example and is retained |
| Dataset.TestsUnderDelhi | solar.js:10-39 | For "delhi" only the coal entry's copy passes the outer test |
| Dataset.RecordsUnderDelhi | solar.js:10-39 | For "delhi" the `.map`/`.filter` chain yields only the coal entry's copy |
| Dataset.TestsUnderGenerators | solar.js:10-39 | For "generators" only the generator entry's copy passes the outer test |
| Dataset.RecordsUnderGenerators | solar.js:10-39 | For "generators" the `.map`/`.filter` chain yields only the generator entry's copy |
| Dataset.NoSpaceCoalInCoalFiredName | solar.js:12 | The lower-cased name "coal-fired power" does not contain " coal" |
| Dataset.CoalInCoalFiredName | solar.js:12 | The lower-cased name "coal-fired power" contains "coal" |
| Scenarios.DadriExample | solar.js:16 | The coal entry's first example is "NTPC Dadri → Delhi NCR (India)" |
| Scenarios.DelhiQuery | solar.js:101-110 | "delhi" yields only "Coal-fired Power", with examples `["NTPC Dadri → Delhi NCR (India)"]` |
| Scenarios.GeneratorsQuery | solar.js:101-110 | "generators" yields only "Oil/Diesel Generators (Backup)", with no example |
| Scenarios.TrimSpaceCoal | solar.js:102 | Trimming " coal" gives "coal" |
| Scenarios.RawQueryIsNotTrimmed | solar.js:102-103 | " coal" is not blank and trims to "coal"; its raw lower-cased form does not occur in the coal entry's name, while the trimmed one does |
| Scenarios.UpperCaseQuery | solar.js:102-103 | "COAL" and "coal" filter every list identically |

## Left out

- Rendering, layout, the `Section` and `Pill` components, animations, icons and the UI
  library imports are presentational and call foreign libraries.
- The `icon` field of each entry is presentational, so `Record` has no such field.
- React's `useState` and `useMemo` and the input's `onChange` handler are left out. The
  memoisation only caches, so the filter is a plain function of the query text.
- The `solutions` and `impacts` arrays are static data rendered without logic.
- The footer's current-date call is clock I/O.
- `tilting/main.py` is not part of this model. It is an interactive input loop around
  an image library.
- Text.Lower: lower-cases ASCII letters only. JavaScript's `toLowerCase` also maps
  non-ASCII upper-case letters and can change a text's length. The two agree on every
  text in the shipped list and on ASCII queries.
- Text.IsWhitespace: lists the space separators of Unicode category Zs explicitly, as
  they stand today. A later Unicode version that changes that category is not tracked.
- JavaScript strings are UTF-16 code units, while Dafny's `string` is a sequence of
  Unicode scalar values. The two coincide on text inside the Basic Multilingual Plane,
  which includes everything in the shipped list (`₂`, `→`, `é`). They can differ for
  queries with characters outside it.
- The concrete queries are proved for "delhi", "generators", and, at the level of one
  name, " coal" and "coal". Other concrete queries on the shipped list are covered only
  by the general lemmas.
