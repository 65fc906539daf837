/** `BaseModel.to_dict`: a record's fields as a dictionary, minus the excluded keys,
    then overlaid with the included entries. */
module BaseModel {

  /** `fields` stands for `asdict(self)`. Excluding an absent key is ignored, like the
      `KeyError` the source swallows; `extra` (the source's `include`) is applied after exclusion and wins. */
  method ToDict<V>(fields: map<string, V>, exclude: set<string>, extra: map<string, V>)
    returns (data: map<string, V>)
    ensures data.Keys == (fields.Keys - exclude) + extra.Keys
    ensures forall k :: k in extra ==> data[k] == extra[k]
    ensures forall k :: k in fields && k !in exclude && k !in extra ==> data[k] == fields[k]
  {
    data := fields;
    var pending := exclude;
    while pending != {}
      invariant pending <= exclude
      invariant data.Keys == fields.Keys - (exclude - pending)
      invariant forall k :: k in data ==> data[k] == fields[k]
      decreases pending
    {
      var key :| key in pending;
      if key in data {
        data := data - {key};
      }
      pending := pending - {key};
    }
    if extra != map[] {
      data := data + extra;
    }
  }

  /** With no arguments every field is returned. */
  method ToDictAll<V>(fields: map<string, V>) returns (data: map<string, V>)
    ensures data == fields
  {
    data := ToDict(fields, {}, map[]);
  }
}
