/**
 * The client-side spell library: an ordered collection of origin-tagged listings, the
 * local key-value store's spell namespace, and the calls made to the account client.
 */
module Library {
  import opened Spells
  import opened Listings

  /** The key of the spell namespace in local storage, also used as the Link of local listings. */
  const SpellsKey: string := "Spells"

  /** The account-relative path under which a remotely saved spell is found. */
  const AccountSpellsPath: string := "/my/spells/"

  /** A request handed to the account client; its network round trip is not modelled. */
  datatype RemoteCall = SaveSpell(spell: SpellRecord) | DeleteSpell(id: string)

  class SpellLibrary {
    /** The listings, in insertion order (the observable array). */
    var spells: seq<Listing>
    /** The spell namespace of local storage, keyed by spell Id. */
    var localSpells: map<string, SpellRecord>
    /** The requests made to the account client so far, oldest first. */
    var remoteCalls: seq<RemoteCall>

    /** The account client's identity generator; nothing is assumed of it. */
    const makeId: string -> string
    /** The spell's search keywords and metadata, as the spell domain object computes them. */
    const keywords: SpellRecord -> SearchHint
    const metadata: SpellRecord -> Metadata

    constructor (makeId: string -> string, keywords: SpellRecord -> SearchHint,
                 metadata: SpellRecord -> Metadata, stored: map<string, SpellRecord>)
      ensures spells == [] && localSpells == stored && remoteCalls == []
      ensures this.makeId == makeId && this.keywords == keywords && this.metadata == metadata
    {
      this.makeId, this.keywords, this.metadata := makeId, keywords, metadata;
      spells, localSpells, remoteCalls := [], stored, [];
    }

    /** The current listings. */
    function GetSpells(): (r: seq<Listing>)
      reads this
      ensures r == spells
    {
      spells
    }

    /** The names the combined name pattern is built from: one per listing, in listing order. */
    function SpellNames(): (r: seq<string>)
      reads this
      ensures |r| == |spells|
      ensures forall i :: 0 <= i < |spells| ==> r[i] == spells[i].Name
    {
      Names(GetSpells())
    }

    /** The listing built from a spell in memory, with the given link and origin. */
    function SpellListing(spell: Spell, link: string, origin: Origin): (l: Listing)
      reads spell
      ensures Stored(l) == StoredListing(spell.Id, spell.Name, spell.Path,
                                         keywords(spell.Snapshot()), metadata(spell.Snapshot()), link)
      ensures l.Origin == origin && l.Value == Some(spell)
    {
      var rec := spell.Snapshot();
      Listing(rec.Id, rec.Name, rec.Path, keywords(rec), metadata(rec), link, origin, Some(spell))
    }

    /** Appends one listing per received record, in order, tagged with source; no Id is checked. */
    method AddListings(listings: seq<StoredListing>, source: Origin)
      modifies this
      ensures spells == old(spells) + FromStoredAll(listings, source)
      ensures localSpells == old(localSpells) && remoteCalls == old(remoteCalls)
    {
      spells := spells + FromStoredAll(listings, source);
    }

    /**
     * The synchronous part of saving a spell: evicts every listing with the spell's Id,
     * canonicalises the Id in place, appends a local listing, writes local storage and asks
     * the account client to save. The returned local listing is what the continuation
     * OnRemoteSaveResolved is given when the remote save resolves.
     */
    method AddOrUpdateSpell(spell: Spell) returns (local: Listing)
      modifies this, spell
      ensures spell.Id == makeId(old(spell.Id))
      ensures spell.Name == old(spell.Name) && spell.Path == old(spell.Path) && spell.Details == old(spell.Details)
      ensures local == SpellListing(spell, SpellsKey, LocalStorage)
      ensures local.Id == spell.Id && local.Origin == LocalStorage && local.Link == SpellsKey
      ensures spells == Without(old(spells), old(spell.Id)) + [local]
      ensures localSpells == old(localSpells)[spell.Id := spell.Snapshot()]
      ensures remoteCalls == old(remoteCalls) + [SaveSpell(spell.Snapshot())]
    {
      spells := Without(spells, spell.Id);
      spell.Id := makeId(spell.Id);
      local := SpellListing(spell, SpellsKey, LocalStorage);
      spells := spells + [local];
      localSpells := localSpells[spell.Id := spell.Snapshot()];
      remoteCalls := remoteCalls + [SaveSpell(spell.Snapshot())];
    }

    /**
     * The continuation of AddOrUpdateSpell's remote save, run when it resolves with r.
     * It reads the spell as it is at that moment. Its guard tests the origin of the local
     * listing, not the collection, so no existing account listing is looked for.
     */
    method OnRemoteSaveResolved(spell: Spell, local: Listing, r: bool)
      modifies this
      ensures !r || local.Origin == Account ==> spells == old(spells)
      ensures r && local.Origin != Account ==>
                spells == old(spells) + [SpellListing(spell, AccountSpellsPath + spell.Id, Account)]
      ensures localSpells == old(localSpells) && remoteCalls == old(remoteCalls)
    {
      if !r {
        return;
      }
      if local.Origin == Account {
        return;
      }
      var accountListing := SpellListing(spell, AccountSpellsPath + spell.Id, Account);
      spells := spells + [accountListing];
    }

    /** Removes every listing with the Id, whatever its origin, deletes it locally and asks for a remote delete. */
    method DeleteSpellById(id: string)
      modifies this
      ensures spells == Without(old(spells), id)
      ensures localSpells == old(localSpells) - {id}
      ensures remoteCalls == old(remoteCalls) + [DeleteSpell(id)]
    {
      spells := Without(spells, id);
      localSpells := localSpells - {id};
      remoteCalls := remoteCalls + [DeleteSpell(id)];
    }
  }

  /** Deleting an Id twice leaves the listings and the local store as one deletion leaves them; both remote deletes are requested. */
  method DeleteTwice(lib: SpellLibrary, id: string)
    modifies lib
    ensures lib.spells == Without(old(lib.spells), id)
    ensures lib.localSpells == old(lib.localSpells) - {id}
    ensures lib.remoteCalls == old(lib.remoteCalls) + [DeleteSpell(id), DeleteSpell(id)]
  {
    lib.DeleteSpellById(id);
    lib.DeleteSpellById(id);
    WithoutIdempotent(old(lib.spells), id);
  }

  /**
   * A remote save confirmed after the spell was deleted still appends an account listing:
   * the deleted Id is back in the collection, though not in local storage.
   */
  method LateConfirmationAfterDelete(lib: SpellLibrary, spell: Spell)
    modifies lib, spell
    ensures |lib.spells| >= 1
    ensures lib.spells[|lib.spells| - 1] == lib.SpellListing(spell, AccountSpellsPath + spell.Id, Account)
    ensures CountId(lib.spells, spell.Id) == 1
    ensures spell.Id !in lib.localSpells
  {
    var pending := lib.AddOrUpdateSpell(spell);
    ghost var saved := lib.spells;
    lib.DeleteSpellById(spell.Id);
    lib.OnRemoteSaveResolved(spell, pending, true);
    var acc := lib.SpellListing(spell, AccountSpellsPath + spell.Id, Account);
    assert lib.spells == Without(saved, spell.Id) + [acc];
    WithoutRemovesAll(saved, spell.Id);
    CountIdConcat(Without(saved, spell.Id), [acc], spell.Id);
  }

  /**
   * A save whose spell Id is already canonical leaves exactly one listing with that Id.
   * A non-canonical Id need not: a listing already carrying the new Id is not evicted.
   */
  lemma SaveLeavesOneListing(s: seq<Listing>, oldId: string, local: Listing)
    requires local.Id == oldId
    ensures CountId(Without(s, oldId) + [local], local.Id) == 1
    ensures CountTagged(Without(s, oldId) + [local], local.Id, Account) == 0 <== local.Origin == LocalStorage
  {
    ReplaceLeavesOne(s, local);
    WithoutRemovesAll(s, oldId);
    CountTaggedConcat(Without(s, oldId), [local], local.Id, Account);
    TaggedBelowId(Without(s, oldId), local.Id, Account);
  }

  /**
   * Saving the same spell twice, then both remote saves succeeding, leaves two identical
   * account listings at the end: the library does not deduplicate them.
   */
  method SaveTwiceBothConfirmed(lib: SpellLibrary, spell: Spell)
    modifies lib, spell
    ensures |lib.spells| >= 3
    ensures lib.spells[|lib.spells| - 1] == lib.spells[|lib.spells| - 2]
    ensures lib.spells[|lib.spells| - 1].Origin == Account
    ensures lib.spells[|lib.spells| - 1].Id == spell.Id
    ensures CountTagged(lib.spells, spell.Id, Account) >= 2
  {
    var first := lib.AddOrUpdateSpell(spell);
    var second := lib.AddOrUpdateSpell(spell);
    ghost var saved := lib.spells;
    lib.OnRemoteSaveResolved(spell, first, true);
    lib.OnRemoteSaveResolved(spell, second, true);
    var acc := lib.SpellListing(spell, AccountSpellsPath + spell.Id, Account);
    assert lib.spells == saved + [acc] + [acc];
    TwoAppended(saved, acc);
  }

  /** Appending one account listing twice adds two account listings with its Id. */
  lemma TwoAppended(s: seq<Listing>, acc: Listing)
    requires acc.Origin == Account
    ensures CountTagged(s + [acc] + [acc], acc.Id, Account) >= 2
  {
    CountTaggedConcat(s + [acc], [acc], acc.Id, Account);
    CountTaggedConcat(s, [acc], acc.Id, Account);
  }

  /**
   * Two different spell objects saved under the same canonical Id: the first one's remote
   * confirmation arriving after the second save still appends an account listing holding the
   * first spell's content, while the second spell's local listing is the only local one.
   */
  method StaleConfirmationAppends(lib: SpellLibrary, a: Spell, b: Spell)
    requires a != b && a.Id == b.Id
    requires lib.makeId(a.Id) == a.Id
    modifies lib, a, b
    ensures |lib.spells| >= 2 && a.Id == b.Id
    ensures lib.spells[|lib.spells| - 1] == lib.SpellListing(a, AccountSpellsPath + a.Id, Account)
    ensures lib.spells[|lib.spells| - 1].Value == Some(a)
    ensures lib.spells[|lib.spells| - 2] == lib.SpellListing(b, SpellsKey, LocalStorage)
    ensures CountTagged(lib.spells, a.Id, LocalStorage) == 1
    ensures a.Id in lib.localSpells && lib.localSpells[a.Id] == b.Snapshot()
  {
    ghost var before := lib.spells;
    var pendingA := lib.AddOrUpdateSpell(a);
    var pendingB := lib.AddOrUpdateSpell(b);
    lib.OnRemoteSaveResolved(a, pendingA, true);
    var acc := lib.SpellListing(a, AccountSpellsPath + a.Id, Account);
    SupersededSave(Without(before, pendingA.Id), pendingA, pendingB, acc);
  }

  /**
   * A later save under the same Id evicts the local listing an earlier save appended:
   * after both saves and one more non-local listing, exactly one local listing has the Id.
   */
  lemma SupersededSave(kept: seq<Listing>, first: Listing, second: Listing, last: Listing)
    requires first.Id == second.Id && second.Origin == LocalStorage && last.Origin != LocalStorage
    ensures CountTagged(Without(kept + [first], first.Id) + [second] + [last], first.Id, LocalStorage) == 1
  {
    var id := first.Id;
    WithoutConcat(kept, [first], id);
    assert Without([first], id) == [];
    assert Without(kept + [first], id) == Without(kept, id);
    OneLocalAfterSave(kept, second, last);
  }

  /** Evicting an Id, appending a local listing with it and then any non-local one leaves one local listing with the Id. */
  lemma OneLocalAfterSave(s: seq<Listing>, local: Listing, other: Listing)
    requires local.Origin == LocalStorage && other.Origin != LocalStorage
    ensures CountTagged(Without(s, local.Id) + [local] + [other], local.Id, LocalStorage) == 1
  {
    var kept := Without(s, local.Id);
    WithoutRemovesAll(s, local.Id);
    TaggedBelowId(kept, local.Id, LocalStorage);
    CountTaggedConcat(kept + [local], [other], local.Id, LocalStorage);
    CountTaggedConcat(kept, [local], local.Id, LocalStorage);
  }
}
