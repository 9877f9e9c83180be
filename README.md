# Spell library model

This project is a Dafny model of the client-side spell library of Improved Initiative, `SpellLibrary` in `client/Library/SpellLibrary.ts`. The library keeps an ordered, mutable collection of spell listings. Each listing carries an Id, a name, a path, search hints, metadata, a link and an origin (`default`, `localStorage` or `account`). The library has three operations that change it:

- bulk ingestion of received listings under an origin;
- saving a spell. This evicts every listing with the spell's Id, canonicalises the Id, appends a local listing, writes local storage and starts a remote save. When that save succeeds, its continuation appends an account listing;
- deleting a spell by Id. This removes every listing with the Id, deletes the spell locally and starts a remote delete.

Files:

- `spells.dfy` (module `Spells`): the spell object. It is a class, because the library overwrites its Id in place. `SpellRecord` is the value that is persisted.
- `listings.dfy` (module `Listings`): the listing datatypes and the pure functions on sequences of listings. Those functions are the batch-to-listings map (`FromStoredAll`), Id-based eviction (`Without`) and the name list (`Names`). The lemmas about them are here too.
- `library.dfy` (module `Library`): the class `SpellLibrary`. It has three fields:
  - `spells`, the observable array;
  - `localSpells`, the spell namespace of local storage;
  - `remoteCalls`, the requests handed to the account client, in order.

  The file also holds the lemmas and four scenario methods: repeated deletion and three interleavings with the remote continuation.

The asynchronous remote leg of a save is a separate method, `OnRemoteSaveResolved(spell, local, r)`. `AddOrUpdateSpell` returns the local listing that the source's closure captures, and a caller interleaves other operations before the continuation as it wishes.

Behaviour of the code worth knowing, all proved about the model:

- The guard at `SpellLibrary.ts:53` looks meant to skip adding an account listing when one already exists. It reads the Origin of the local listing instead, and line 46 always sets that to `localStorage`, so the guard never fires. Every successful remote save appends an account listing, and line 64 pushes it without looking at the collection. `SaveTwiceBothConfirmed` proves that saving a spell twice and confirming both saves leaves two identical account listings.
- A confirmation that arrives after a newer save is not dropped. `StaleConfirmationAppends` proves that such a confirmation still appends an account listing that holds the older spell object.
- A confirmation that arrives after the spell was deleted is not dropped either. `LateConfirmationAfterDelete` proves that the deleted Id is back in the collection as an account listing, while local storage no longer holds it.
- `AccountClient.MakeId` is applied on every save (line 38), not only to a missing Id. Its source is not part of this model, so the model takes it as an arbitrary function. Eviction at line 37 uses the Id from before line 38. A listing that already carries the new Id therefore survives unless the Id was already canonical (`SaveLeavesOneListing`).
- Nothing keeps listings unique per (Id, origin). `AddListings` never deduplicates (`DoubleIngestion`), and repeated successful remote saves accumulate account listings (`SaveTwiceBothConfirmed`).

## Model

| member | source | states |
|---|---|---|
| `Listings.FromStored` | client/Library/SpellLibrary.ts:23-31 | the listing built for one received record: its public fields are the record's, its origin is the given source and it holds no in-memory value |
| `Listings.FromStoredAll` | client/Library/SpellLibrary.ts:22-32 | one listing per received record, same length and same order; each listing's public fields equal the record, its origin is the given source and it holds no in-memory value |
| `Listings.Without` | client/Library/SpellLibrary.ts:37 | the listings left after removing an Id: never longer; a listing is in the result exactly when it was in the input and has another Id |
| `Listings.WithoutRemovesAll` | client/Library/SpellLibrary.ts:69 | after removal no listing with that Id is left, whatever its origin |
| `Listings.WithoutKeepsOthers` | client/Library/SpellLibrary.ts:69 | every listing with another Id keeps its value and its number of copies (multiset), and listings with the Id have none |
| `Listings.WithoutPreservesOrder` | client/Library/SpellLibrary.ts:37 | two kept listings appear in the result in the same relative order as in the input |
| `Listings.WithoutConcat` | client/Library/SpellLibrary.ts:37 | removal acts on each part of a concatenation separately, so the result is the input with the matching listings taken out where they stand |
| `Listings.WithoutIdempotent` | client/Library/SpellLibrary.ts:69 | removing the same Id twice gives what removing it once gives |
| `Listings.WithoutAbsent` | client/Library/SpellLibrary.ts:69 | removing an Id that no listing carries leaves the sequence unchanged |
| `Listings.ReplaceLeavesOne` | client/Library/SpellLibrary.ts:37-49 | evicting an Id and appending one listing with that Id leaves exactly one listing with it |
| `Listings.DoubleIngestion` | client/Library/SpellLibrary.ts:19-34 | ingesting one batch twice doubles the count of every Id of the batch, and every Id in the batch has a positive count |
| `Listings.Names` | client/Library/SpellLibrary.ts:14 | the names list has one entry per listing, and entry i is listing i's name |
| `Library.SpellLibrary.constructor` | client/Library/SpellLibrary.ts:11-17 | a new library has no listings and no remote requests; local storage holds what it held before |
| `Library.SpellLibrary.GetSpells` | client/Library/SpellLibrary.ts:12 | returns exactly the current listing sequence |
| `Library.SpellLibrary.SpellNames` | client/Library/SpellLibrary.ts:13-15 | the names the name pattern is built from: one per current listing, in listing order |
| `Library.SpellLibrary.SpellListing` | client/Library/SpellLibrary.ts:39-48 | the listing built from a spell in memory (also at lines 54-63): Id, name and path come from the spell's current fields, search hint and metadata from the spell's keyword and metadata functions, link and origin as given, and the value is the spell object itself |
| `Library.SpellLibrary.AddListings` | client/Library/SpellLibrary.ts:19-34 | the new listing sequence is the old one with the batch's listings appended; local storage and remote requests are unchanged |
| `Library.SpellLibrary.AddOrUpdateSpell` | client/Library/SpellLibrary.ts:36-51 | the spell's Id becomes MakeId of its old Id and its other fields are unchanged; the new sequence is the old one without the old Id, plus one last listing with Id equal to the new Id, origin localStorage, Link equal to the spell namespace key, the spell's keywords and metadata, and the spell itself as value; local storage maps the new Id to the spell and keeps every other key; exactly one remote save request is added |
| `Library.SpellLibrary.OnRemoteSaveResolved` | client/Library/SpellLibrary.ts:51-65 | a falsy result, or a local listing whose origin is account, leaves the sequence unchanged; otherwise exactly one account listing is appended, carrying the spell's current Id and Link `/my/spells/` + Id; local storage and remote requests are unchanged |
| `Library.SpellLibrary.DeleteSpellById` | client/Library/SpellLibrary.ts:68-72 | the new sequence is the old one without every listing with that Id; local storage loses that key and keeps every other; exactly one remote delete request is added |
| `Library.DeleteTwice` | client/Library/SpellLibrary.ts:68-72 | deleting an Id twice leaves the listing sequence and local storage exactly as one deletion leaves them; two remote deletes are requested |
| `Library.SaveLeavesOneListing` | client/Library/SpellLibrary.ts:37-49 | when MakeId leaves the Id unchanged, a save leaves exactly one listing with that Id and, before the remote confirmation, no account listing with it |
| `Library.OneLocalAfterSave` | client/Library/SpellLibrary.ts:37-64 | when MakeId leaves the Id unchanged, a save followed by any non-local listing leaves exactly one local listing with that Id |
| `Library.SupersededSave` | client/Library/SpellLibrary.ts:37-49 | a later save under the same Id evicts the local listing of an earlier save, so exactly one local listing with the Id remains |
| `Library.SaveTwiceBothConfirmed` | client/Library/SpellLibrary.ts:36-65 | saving one spell twice and confirming both remote saves leaves two identical account listings at the end, because the line-53 guard never fires |
| `Library.StaleConfirmationAppends` | client/Library/SpellLibrary.ts:36-65 | in a save of spell A, then a save of spell B under the same canonical Id, then A's confirmation: the last listing is an account listing holding A; the one before it is B's local listing; B's is the only local listing for that Id; and local storage holds B |
| `Library.LateConfirmationAfterDelete` | client/Library/SpellLibrary.ts:36-72 | a save, a deletion of the spell's Id, then a successful confirmation: the last listing is the spell's account listing, it is the only listing with that Id, and local storage does not hold the Id |

## Left out

- `server/routes.ts` is not part of this model. It holds HTTP routing, page rendering, session handling, database calls and a random id generator.
- Knockout reactivity and memoisation are not modelled. The observable array is a plain sequence field, and `GetSpells`/`SpellNames` are functions of it.
- The regular expression built by `concatenatedStringRegex` is not modelled, because that function's code is not part of this model. Only the list of names it is built from is modelled (`SpellNames`).
- The account client's network promises are not modelled. A save or delete is recorded as a request in `remoteCalls`. The save's resolution is the separate method `OnRemoteSaveResolved`, which takes the result as a boolean. The delete's result is ignored, as in the source.
- `AccountClient.MakeId`, `Spell.GetKeywords` and `Spell.GetMetadata` are not part of this model. They are function-valued constants that the library is constructed with, and nothing is assumed about them (in particular, `MakeId` is not assumed idempotent).
- The internals of the `Listing` class are not part of this model. A listing is a datatype, and `listing.Get().Id` is its `Id` field.
- The `Store` module is not part of this model. Store.Spells is taken to be the string `"Spells"`, and local storage is the map `localSpells`, which holds a value snapshot of the spell. A failing `Store.Save` (for example, a full storage quota) is not modelled.
- Timing is not modelled. Interleavings of the remote continuation with later operations are written as explicit call sequences (`SaveTwiceBothConfirmed`, `StaleConfirmationAppends`).
- Type-level generality over the listed resource (`Listing<T>`) is not modelled. The model is specialised to spells, as the source file is.
