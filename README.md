# sb-dev: the card catalogue and the account page, in Dafny

This project models two parts of the sb-dev web front end and proves properties of them.

**The credit-card catalogue** (`card_catalogue.dfy`, module `CardCatalogue`). This is the static list of 99 `CreditCard` records (issuer, name, id) that the card selector shows. Its grouping `cardsByIssuer` is a `reduce` over the list that builds a JavaScript object from issuer to an array of that issuer's cards. The model covers:
- The fold, as the method `GroupByIssuer`. Its loop is proved against two specification functions, `IssuersOf` and `Grouping`.
- The object, as the datatype `IssuerGroups`. It holds the keys in insertion order and the map from key to group, so `Object.keys` (`cardIssuers`) is its `keys` field.
- Lemmas proving that the grouping partitions the list by issuer, loses and duplicates nothing, and keeps catalogue order within each group.
- Lemmas proving that the issuers come out once each, in order of first appearance.
- Concrete facts about the shipped data: 99 cards in 17 groups, the issuer order, the two Elan "MCP" cards in separate groups, and the two USAA cards in one group.

**The account page** (`profile_page.dfy`, module `ProfilePage`). The model covers:
- The avatar initials: the name split at spaces, the first character of each piece, joined. The fallback is "U".
- The page's choice between redirecting to the sign-in page, showing the loading screen, and showing the page.
- The profile form's edit state: the class `ProfilePageState` with the page's two state variables, `editing` and `formData`, and one method per handler (edit, change, cancel, save).
- Short sessions on a fresh page, for example edit then save, or edit, change, cancel and edit again. These state what is sent to `updateProfile` and what the form holds.

The outcome of `updateProfile` (a call into the profile context, which reaches the backend outside demo mode) is the parameter `succeeds`. Navigation is represented by the `Redirect` value that `View` returns.

## Model

| member | source | states |
|---|---|---|
| CardCatalogue.CardsOf | sb-dev/src/lib/credit-cards-data.ts:125-132 | an issuer's group holds exactly the cards of that issuer, and no more cards than the list |
| CardCatalogue.IssuersOf | sb-dev/src/lib/credit-cards-data.ts:125-135 | the keys of the record: each issuer once, and exactly the issuers that some card has |
| CardCatalogue.GroupByIssuer | sb-dev/src/lib/credit-cards-data.ts:125-132 | the fold (add an empty group for a new issuer, then push the card) yields the keys `IssuersOf(cards)` and the groups `Grouping(cards)`, with one distinct key per group |
| CardCatalogue.FoldStep | sb-dev/src/lib/credit-cards-data.ts:126-131 | one step of the reducer callback takes the specification of a prefix to the specification of the prefix extended by one card |
| CardCatalogue.GroupingSnoc | sb-dev/src/lib/credit-cards-data.ts:126-131 | adding a card adds its issuer as a key if the issuer is new, and changes only that issuer's group, by appending the card |
| CardCatalogue.GroupingPartitionsByIssuer | sb-dev/src/lib/credit-cards-data.ts:125-132 | every card is in its issuer's group; no group holds another issuer's card; a key exists iff some card has that issuer; no group is empty |
| CardCatalogue.CardsOfMultiplicity | sb-dev/src/lib/credit-cards-data.ts:125-132 | a group holds each card of its issuer exactly as many times as the list does, and no card of another issuer |
| CardCatalogue.GroupsCoverCatalogue | sb-dev/src/lib/credit-cards-data.ts:125-135 | the groups, concatenated in `Object.keys` order, are a permutation of the list, so the group sizes sum to the number of cards |
| CardCatalogue.GroupKeepsCatalogueOrder | sb-dev/src/lib/credit-cards-data.ts:130 | a group is the list read at strictly increasing positions, which are exactly the positions of that issuer's cards (push keeps catalogue order) |
| CardCatalogue.IssuerPositionsReadGroup | sb-dev/src/lib/credit-cards-data.ts:130 | reading the list at the increasing positions of an issuer's cards gives that issuer's group, element by element |
| CardCatalogue.IssuerPositionsExact | sb-dev/src/lib/credit-cards-data.ts:127-130 | those positions are exactly the positions that hold a card of the issuer |
| CardCatalogue.FirstIndex | sb-dev/src/lib/credit-cards-data.ts:127-129 | the position of an issuer's first card: it has that issuer, and no earlier card does |
| CardCatalogue.IssuersInFirstAppearanceOrder | sb-dev/src/lib/credit-cards-data.ts:135 | `cardIssuers` lists issuers in strictly increasing order of their first card |
| CardCatalogue.CatalogueRuns | sb-dev/src/lib/credit-cards-data.ts:7-122 | the records as 17 blocks of consecutive records that share an issuer, including the eleven records of lines 111-121 that no listing function holds; `CatalogueRunIssuers` and `CatalogueRunLengths` state its issuers and block sizes |
| CardCatalogue.CapitalOneListings | sb-dev/src/lib/credit-cards-data.ts:9-25 | the 17 "Cap one" records |
| CardCatalogue.ChaseListings | sb-dev/src/lib/credit-cards-data.ts:28-56 | the 29 "Chase" records |
| CardCatalogue.BankOfAmericaListings | sb-dev/src/lib/credit-cards-data.ts:59-64 | the 6 "Bank of America®" records |
| CardCatalogue.AmexListings | sb-dev/src/lib/credit-cards-data.ts:67-81 | the 15 "Amex" records |
| CardCatalogue.CitiListings | sb-dev/src/lib/credit-cards-data.ts:84-92 | the 9 "Citi" records |
| CardCatalogue.WellsFargoListings | sb-dev/src/lib/credit-cards-data.ts:95-102 | the 8 "WFC" records |
| CardCatalogue.USBankListings | sb-dev/src/lib/credit-cards-data.ts:105-108 | the 4 "US Bank" records |
| CardCatalogue.Listed | sb-dev/src/lib/credit-cards-data.ts:7-122 | the blocks concatenated in order; `ListedIssuers`, `ListedGroup` and `ListedLength` state what the fold makes of such a list |
| CardCatalogue.CreditCards | sb-dev/src/lib/credit-cards-data.ts:7-122 | the 99 records in source order; `CatalogueSize`, `CatalogueIssuerOrder` and `CatalogueGroups` state their number, their issuers and their groups |
| CardCatalogue.ListedIssuers | sb-dev/src/lib/credit-cards-data.ts:7-135 | a list made of non-empty blocks with distinct issuers has those issuers as its keys, in block order |
| CardCatalogue.ListedGroup | sb-dev/src/lib/credit-cards-data.ts:7-135 | in such a list, the group of a block's issuer is exactly that block |
| CardCatalogue.ListedLength | sb-dev/src/lib/credit-cards-data.ts:7-122 | blocks ending at the given positions hold as many records as the last position |
| CardCatalogue.CatalogueRunIssuers | sb-dev/src/lib/credit-cards-data.ts:7-122 | the catalogue's 17 blocks carry the issuers "Cap one", "Chase", ..., "USAA" in order, each with at least one record |
| CardCatalogue.CatalogueRunLengths | sb-dev/src/lib/credit-cards-data.ts:7-122 | the blocks hold 17, 29, 6, 15, 9, 8, 4, then nine single records, then 2 records |
| CardCatalogue.CatalogueIssuersDistinct | sb-dev/src/lib/credit-cards-data.ts:7-122 | no issuer heads two blocks |
| CardCatalogue.CatalogueSize | sb-dev/src/lib/credit-cards-data.ts:7-122 | `creditCards` has 99 records |
| CardCatalogue.CatalogueIssuerOrder | sb-dev/src/lib/credit-cards-data.ts:135 | `cardIssuers` is "Cap one", "Chase", "Bank of America®", "Amex", "Citi", "WFC", "US Bank", "Affinity FCU", "Discover", the two Elan issuers, "FNBO", "Navy Federal", "PenFed", "Synchrony", "Target/TD Bank", "USAA": 17 issuers |
| CardCatalogue.CatalogueGroupSizes | sb-dev/src/lib/credit-cards-data.ts:125-135 | the 17 groups together hold 99 cards |
| CardCatalogue.CatalogueGroups | sb-dev/src/lib/credit-cards-data.ts:125-132 | the group of each of the 17 issuers is exactly its block of records |
| CardCatalogue.CatalogueElanHarborstoneGroup | sb-dev/src/lib/credit-cards-data.ts:113 | the Harborstone "MCP" card is alone in its group, although another card has the same name |
| CardCatalogue.CatalogueElanSouthStateGroup | sb-dev/src/lib/credit-cards-data.ts:114 | the SouthState "MCP" card is alone in its group |
| CardCatalogue.CatalogueUsaaGroup | sb-dev/src/lib/credit-cards-data.ts:120-121 | the two USAA cards share one group, in list order |
| CardCatalogue.CatalogueIndex | sb-dev/src/lib/credit-cards-data.ts:125-135 | running the fold on the catalogue gives a well-formed record whose groups are `Grouping(creditCards)`; `cardIssuers` is its keys, which are the 17 issuers in order |
| ProfilePage.Split | sb-dev/src/app/profile/page.tsx:110 | `split(" ")` always gives at least one piece, and no piece contains the separator |
| ProfilePage.Join | sb-dev/src/app/profile/page.tsx:112 | `pieces.join(sep)`; `JoinSplit` states that it undoes `Split` |
| ProfilePage.JoinSplit | sb-dev/src/app/profile/page.tsx:110 | joining the pieces with the separator gives back the name (the split loses nothing) |
| ProfilePage.Head | sb-dev/src/app/profile/page.tsx:111-112 | `n[0]` as `join` writes it: empty exactly for an empty piece, otherwise the piece's first character |
| ProfilePage.Initials | sb-dev/src/app/profile/page.tsx:108-113 | "U" when there is no profile or the name is null or empty; otherwise the characters that start a word of the name, one per non-empty piece, so no more than there are pieces |
| ProfilePage.JoinedHeadsAreWordStarts | sb-dev/src/app/profile/page.tsx:109-112 | split, map and join yield exactly the word-starting characters, a definition that uses no splitting |
| ProfilePage.JoinedHeadsLength | sb-dev/src/app/profile/page.tsx:111-112 | the joined heads have one character per non-empty piece, at most one per piece |
| ProfilePage.InitialsOfOneWordU | sb-dev/src/app/profile/page.tsx:108-113 | the name "Uma" also shows "U", the same as the fallback |
| ProfilePage.InitialsOfBlankName | sb-dev/src/app/profile/page.tsx:108-113 | the name " " is not empty, so there is no fallback, and it shows no initials at all |
| ProfilePage.InitialsOfTwoWords | sb-dev/src/app/profile/page.tsx:108-113 | "Jo  Li" shows "JL": the empty piece between the two spaces adds nothing |
| ProfilePage.View | sb-dev/src/app/profile/page.tsx:44-47 | redirect to "/auth/signin" iff loading is over and there is no profile; the loading screen iff loading; otherwise the page with `Initials(profile)` |
| ProfilePage.NameOrEmpty | sb-dev/src/app/profile/page.tsx:53 | the name when present, the empty string for a null name (`profile.name` or `""`) |
| ProfilePage.FormOf | sb-dev/src/app/profile/page.tsx:52-55 | the form loaded from a profile: a null name gives an empty name input, a present name is copied as it is, and the email is copied |
| ProfilePage.Set | sb-dev/src/app/profile/page.tsx:81-84 | `{ ...prev, [name]: value }`: the named input takes the value and the other input is unchanged |
| ProfilePage.ProfilePageState.constructor | sb-dev/src/app/profile/page.tsx:37-41 | a fresh page is not editing, and both inputs are empty |
| ProfilePage.ProfilePageState.HandleEdit | sb-dev/src/app/profile/page.tsx:50-58 | with a profile, the form holds `FormOf(profile)` and is open; without one, nothing changes |
| ProfilePage.ProfilePageState.HandleCancel | sb-dev/src/app/profile/page.tsx:61-63 | the form closes, and its inputs are untouched |
| ProfilePage.ProfilePageState.HandleSave | sb-dev/src/app/profile/page.tsx:66-78 | with a profile, the inputs are sent as they were and the form closes only if the update succeeds; without one, nothing is sent and nothing changes; the inputs never change |
| ProfilePage.ProfilePageState.HandleChange | sb-dev/src/app/profile/page.tsx:81-84 | the form becomes `Set(old form, field, value)`; `editing` stays |
| ProfilePage.EditThenSave | sb-dev/src/app/profile/page.tsx:50-78 | saving an untouched form sends the profile back, with a null name sent as ""; the form stays open exactly when the update fails |
| ProfilePage.EditChangeSave | sb-dev/src/app/profile/page.tsx:50-84 | after editing one input, the update holds the new value for it and the profile's value for the other input |
| ProfilePage.EditChangeCancelEdit | sb-dev/src/app/profile/page.tsx:50-84 | cancel keeps the typed value in the form, but reopening reloads the profile and discards it |
| ProfilePage.SaveWithoutProfile | sb-dev/src/app/profile/page.tsx:50-78 | without a profile, edit and save send nothing, and the form stays closed and empty |

## Left out

- GroupByIssuer: the record is modelled as insertion-ordered. JavaScript's `Object.keys` lists integer-like keys (such as "12") first in numeric order, and no catalogue issuer is integer-like.
- GroupByIssuer: the test `!groups[issuer]` also sees keys that a plain `{}` inherits, such as "toString" or "constructor". For such an issuer the source would push onto a function and fail. No catalogue issuer is such a name, so the model treats only own keys as present.
- CreditCards: the list is written as consecutive blocks of records that share an issuer (`CatalogueRuns`, then `Listed`). This gives the same 99 records in the same order, but it is not a record-by-record transcription.
- Initials: JavaScript strings are sequences of UTF-16 code units, and the model's strings are sequences of Dafny characters. For a name that starts with a character outside the Basic Multilingual Plane, the source's `n[0]` is half a surrogate pair. That case is not modelled.
- Split: only a one-character separator is modelled, because the page splits only on " ".
- HandleSave: `updateProfile` is asynchronous, and events arriving before the awaited call settles are not modelled. Its effect on the stored profile is not modelled either, nor is the `console.error` of a failure. Only whether it succeeds is modelled, as `succeeds`.
- HandleChange: only the two input names the form uses ("name" and "email") are modelled. Any other input name would add a new key to the form state.
- React state updates are modelled as immediate assignments. Batching and re-rendering are not modelled.
- The rendered markup is not modelled: the name and email texts, the tabs, the avatar image, the card selector and the preferences tab.
- `router.push` and `router.refresh` are not modelled, nor are the sign-out and notification-toggle handlers. These are navigation and calls to the backend.
- The profile context (which supplies `profile`, `isLoading` and `updateProfile`) and the Supabase client are not part of this model. Their outputs are parameters.
- The sign-in, forgot-password and callback pages, the layout and `ClientBody` are not part of this model.
