/** The spell domain object, as far as the spell library touches it. */
module Spells {

  /** The persisted form of a spell: what local storage and the account client are handed. */
  datatype SpellRecord = SpellRecord(Id: string, Name: string, Path: string, Details: map<string, string>)

  /**
   * A spell being created or edited. The library overwrites its Id in place, and a
   * listing built from it keeps a reference to the object itself.
   * Details stands for the remaining fields of the spell's schema, which the library never reads.
   */
  class Spell {
    var Id: string
    var Name: string
    var Path: string
    var Details: map<string, string>

    constructor (id: string, name: string, path: string, details: map<string, string>)
      ensures Id == id && Name == name && Path == path && Details == details
    {
      Id, Name, Path, Details := id, name, path, details;
    }

    /** The spell's current field values. */
    function Snapshot(): SpellRecord
      reads this
    {
      SpellRecord(Id, Name, Path, Details)
    }
  }
}
