# casewhat, modelled in Dafny

casewhat is a script against the Rally ALM service. It resolves a test
folder's formatted ID to a reference and fetches the folder's test cases.
Then, one test case at a time, it copies the description of the user story
the case belongs to (its `workProduct`) onto the test case. This project
models the script's deterministic rules. The remote calls (`restAPI.query`,
`restAPI.get`, `restAPI.update`) become parameters: an oracle function, or
the outcome the call settles to.

- `Js.dfy` (module `Js`): the JavaScript values the script handles. Each is
  `undefined`, `null`, a boolean, an integer, a string or an object, and an
  object is a map of its properties. The module also has property access
  (a missing key reads as `undefined`) and truthiness.
- `Resolver.dfy` (module `Resolver`): `getRef`. `StripLetters` is
  `replace(/^[A-Za-z]+/, '')`. `NumericId` says which numeric ID is queried,
  or that no query is issued. `GetRef` reduces the query outcome to the
  first result's `_ref`, with `''` on every other path, for a successful
  query that carries `Results`.
- `Shaper.dfy` (module `Shaper`): `lc0Of` and the two record shapers. The
  function `Writes` states the record as the script's property writes in
  order, so a later write to the same key wins. `WriteNames`, `WriteFields`,
  `GetItemData` and `GetCollectionData` do those writes in loops and are
  proved to build exactly that record. The sentinels are the tagged union
  `Shaped`: `Blank` is the `{}` or `[]` for a falsy reference, `Failed` is
  the `''` for a failed fetch, and `Data` is the records. The union
  separates results that the script itself cannot tell apart: a successful
  fetch with no fields gives `{}` (or an empty collection gives `[]`),
  which is the same JavaScript value as `Blank`. No part of the model
  depends on the difference; `DescriptionOf` maps both to `undefined`.
- `Walker.dfy` (module `Walker`): `whatCases`, written as a loop. It returns
  the updates it issued and a halt tag. Three scenario methods call it on
  concrete inputs.

Two consequences of the code that the model states:

- A failed story fetch does not halt the walk. The rejection handler of
  `getItemData` (index.js:107-110) resolves a failed get to `''`. As long
  as a successful get yields an `Object`, `getItemData` never rejects, so
  the walker's handler at index.js:206-208 does not run. The update is still
  issued, with `''.description`, which is `undefined`. If that update
  succeeds, the walk continues (index.js:197-203). `WhatCases` proves `halt != StoryFetchFailed` for the
  responses modelled here.
- Names that share a dromedary-case key collapse into one key, and the last
  write wins. A member record also has its own `ref` key, which a fact named
  `Ref` overwrites. `ItemRecordKeys`, `ItemRecordFact`,
  `ItemRecordCollection` and the four `MemberRecord` lemmas state the record as
  the code builds it.

## Model

| member | source | states |
|---|---|---|
| Js.Truthy | index.js:79 | a value is falsy exactly when it is `undefined`, `null`, `false`, `0` or `''` (the tests `if (ref)` at index.js:79 and index.js:119, and `if (storyRef)` at index.js:182) |
| Resolver.StripLetters | index.js:41 | the result is a suffix of the input; what was removed is all ASCII letters; the result does not start with a letter, so the leading letter run was removed in full |
| Resolver.NumericId | index.js:40-46 | a missing or empty ID issues no query; when a query is issued, its numeric ID is non-empty, all digits, and the input with only a leading letter run removed |
| Resolver.StripLettersBeforeDigits | index.js:41 | stripping `<letters><digits>` leaves exactly the digits |
| Resolver.QueriesDigitsAfterLetters | index.js:41-46 | every ID of the form `<letters><digits>` (letters possibly empty) is queried with exactly its digits; the converse of NumericId's contract |
| Resolver.NonDigitMeansNoQuery | index.js:41-42 | a non-digit at or after the first non-letter means no query is issued (the `Invalid ID` path) |
| Resolver.ExampleLeadingZeros | index.js:41-46 | `TC0012` is queried as `0012` |
| Resolver.ExampleNoPrefix | index.js:41-46 | `12` is queried as `12` |
| Resolver.ExamplePrefixOnly | index.js:41-42 | `TC` issues no query |
| Resolver.ExampleTrailingLetter | index.js:41-42 | `TC12a` issues no query |
| Resolver.GetRef | index.js:39-74 | a non-empty reference comes only from a query issued with the numeric ID and is the first result's `_ref`; a non-empty result list always yields its first element; every other path yields `''` |
| Resolver.NoQueryForInvalidId | index.js:65-73 | without a valid ID the result is `''` whatever the service would answer |
| Shaper.Lc0 | index.js:76 | the length is unchanged; characters after the first are unchanged; the first is lower-cased if it is an upper-case ASCII letter, and kept otherwise |
| Shaper.Shape | index.js:93-102 | a fact that is not an object is copied unchanged, `null` and `undefined` included; a fact that is a non-null object becomes its `_ref`; a collection becomes an object with exactly the keys `ref` and `count`, holding its `_ref` and `Count` (index.js:142-154 shape member fields the same way) |
| Shaper.WritesKeys | index.js:92-103 | the keys after the writes are the base record's keys plus the dromedary-case names |
| Shaper.WritesLastWins | index.js:92-103 | a key holds the shaped value of the last name that writes it |
| Shaper.WritesKeepBase | index.js:133-155 | a base key that no name writes keeps its base value (the member's initial `ref`) |
| Shaper.ItemRecordKeys | index.js:90-105 | the item record's key set is exactly lc0Of of the requested facts and collections, with no other key |
| Shaper.ItemRecordFact | index.js:92-96 | a fact holds its raw value unchanged (including `null` and `undefined`), or the nested `_ref` when the raw value is a non-null object, unless a later fact or a collection writes the same key |
| Shaper.ItemRecordCollection | index.js:98-103 | a collection holds `{ref: _ref, count: Count}` of its raw value, unless a later collection writes the same key |
| Shaper.MemberRecordKeys | index.js:132-157 | a member record's key set is `ref` plus exactly lc0Of of the requested facts and collections |
| Shaper.MemberRecordRef | index.js:134-136 | `ref` holds the member's `_ref` unless a fact or collection writes the key `ref` |
| Shaper.MemberRecordFact | index.js:141-145 | a member's fact is shaped as for an item: the raw value, or the nested `_ref` of a non-null object, unless a later fact or a collection writes the same key |
| Shaper.MemberRecordCollection | index.js:150-155 | a member's collection holds `{ref: _ref, count: Count}`, unless a later collection writes the same key |
| Shaper.WriteNames | index.js:92-96 | one `forEach` loop of writes builds exactly the record given by `Writes` for those names (also index.js:98-103, 141-155) |
| Shaper.WriteFields | index.js:92-103 | the two `forEach` loops build exactly the record given by the writes, facts first and then collections |
| Shaper.GetItemData | index.js:78-116 | a falsy reference gives `{}` whatever the service would answer; a failed fetch gives `''`; a successful fetch gives the item record |
| Shaper.GetCollectionData | index.js:118-171 | a falsy reference gives `[]`; a failed fetch gives `''`; otherwise there is one member record per member, in member order |
| Walker.StoryRecordDescription | index.js:184-192 | the record fetched for a story holds, under `description`, the story's `Description` shaped as a fact |
| Walker.DescriptionOf | index.js:192 | `data.description` is the record's `description` value when the shaper gave a record with that key, and `undefined` for a record without it, for `{}` and for the `''` of a failed fetch |
| Walker.WhatCases | index.js:174-216 | updates are issued one per case, in input order, each carrying the case's ref and the description from that step's own get of its story (fetch and update outcomes are given per step, so two cases with the same story can get different answers); they cover a prefix of the cases; the walk stops before the first case without a story and right after the first failed update; a failed story fetch still issues an update with an undefined description and does not halt the walk by itself; when every case has a story and every update succeeds, every case is updated |

## Left out

- Loading the environment and credentials, building the Rally client and its integration headers, and the HTTPS module (index.js:9-30). These are library setup.
- The remote query, get and update calls and their promise scheduling. Their outcomes are parameters. The one-at-a-time ordering is kept as loop order.
- Log messages. The walker returns a halt tag instead. The per-case log calls are not modelled.
- The entry wiring (index.js:219-238). It reads `folder.testCases.ref` from the string that `getRef` resolves to, so it cannot reach the walker as written.
- A successful get is assumed to resolve to a response that carries `Object` (and, for a collection, `Object.Results`). A response without it throws inside the fulfilment handler: `obj[fact]` at index.js:93 when there is a fact, and `obj[collection]` at index.js:100-101 when there is a collection, for getItemData; `collection.Object.Results` at index.js:128 for getCollectionData. getItemData with no facts and no collections resolves such a response to `{}`. That would reject the shaper's promise, and in the walker it would make the handler at index.js:206-208 run and halt the walk with no update. `Fetch` cannot express such a response, so the model does not capture that halt.
- Resolver.GetRef: a successful query is assumed to carry `Results`, an array of objects. A response without `Results`, or with a `null` first result, throws at index.js:50-52, and `getRef`'s promise then rejects. `QueryOutcome` cannot express such a response.
- The `TypeError` thrown when a requested collection field is `null` or `undefined` (index.js:100-101, index.js:152-153). `Present` is a precondition of the shapers instead.
- Shaper.Lc0: only ASCII upper-case letters are lower-cased. The Unicode case mapping of `toLowerCase` is not modelled.
- JavaScript numbers are modelled as integers. Floating point and `NaN` (which is falsy) are not modelled.
- Property access on primitives reads every property the script uses as `undefined`. Built-in properties such as `length` and prototype properties are not modelled.
- Resolver.GetRef: each query result is modelled by its `_ref` string, and the error object of a failed query is dropped.
- The regular-expression engine. The two patterns are written as character predicates.
