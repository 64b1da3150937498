/** The two mutable value holders of the field-scoped protocol: the identity
    descriptor (KeyAware) and the cached-fields snapshot (CacheAware). Java
    lists are modelled as sequences, so a list shared between two holders is
    shared by value, not by reference. */
module Entity {
  import opened Lang

  /** What a KeyAware holds at one moment: a hash key name and the ordered
      field names under it; either may be null. */
  datatype Key = Key(name: Option<string>, fields: Option<seq<string>>)

  /** What a CacheAware holds at one moment, with its KeyAware read through. */
  datatype Snapshot = Snapshot(key: Option<Key>, values: Option<seq<string>>)

  class KeyAware {
    var keyName: Option<string>
    var fields: Option<seq<string>>

    constructor (keyName: Option<string>, fields: Option<seq<string>>)
      ensures this.keyName == keyName && this.fields == fields
    {
      this.keyName := keyName;
      this.fields := fields;
    }

    function GetKeyName(): (r: Option<string>)
      reads this
      ensures r == keyName
    {
      keyName
    }

    method SetKeyName(keyName: Option<string>)
      modifies this
      ensures GetKeyName() == keyName && GetFields() == old(GetFields())
    {
      this.keyName := keyName;
    }

    function GetFields(): (r: Option<seq<string>>)
      reads this
      ensures r == fields
    {
      fields
    }

    method SetFields(fields: Option<seq<string>>)
      modifies this
      ensures GetFields() == fields && GetKeyName() == old(GetKeyName())
    {
      this.fields := fields;
    }

    function View(): Key
      reads this
    {
      Key(keyName, fields)
    }
  }

  /** The value of a possibly-null KeyAware reference. */
  function KeyView(ka: KeyAware?): (r: Option<Key>)
    reads ka
    ensures r.None? <==> ka == null
  {
    if ka == null then None else Some(ka.View())
  }

  class CacheAware {
    var keyAware: KeyAware?
    var values: Option<seq<string>>

    /** Stores both arguments as given: the KeyAware is the caller's object,
        not a copy. */
    constructor (keyAware: KeyAware?, values: Option<seq<string>>)
      ensures this.keyAware == keyAware && this.values == values
    {
      this.keyAware := keyAware;
      this.values := values;
    }

    function GetKeyAware(): (r: KeyAware?)
      reads this
      ensures r == keyAware
    {
      keyAware
    }

    method SetKeyAware(keyAware: KeyAware?)
      modifies this
      ensures GetKeyAware() == keyAware && GetValues() == old(GetValues())
    {
      this.keyAware := keyAware;
    }

    function GetValues(): (r: Option<seq<string>>)
      reads this
      ensures r == values
    {
      values
    }

    method SetValues(values: Option<seq<string>>)
      modifies this
      ensures GetValues() == values && GetKeyAware() == old(GetKeyAware())
    {
      this.values := values;
    }

    function View(): Snapshot
      reads this, keyAware
    {
      Snapshot(KeyView(keyAware), values)
    }
  }

  /** The value of a possibly-null CacheAware reference. */
  function SnapshotView(ca: CacheAware?): (r: Option<Snapshot>)
    reads ca, if ca == null then {} else {ca.keyAware}
    ensures r.None? <==> ca == null
  {
    if ca == null then None else Some(ca.View())
  }
}
