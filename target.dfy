/**
  The person the agent talks to (src/core/entity/target.py), with a list of
  stored items that only ever grows at the end.
*/
module Targets {
  import opened Wrappers

  /** `Target`: the storage list is the only field that changes. */
  class Target<T> {
    const name: string
    const description: string
    var storage: seq<T>
    const engagementId: Option<string>

    /** `__init__`: a missing or empty storage list starts empty; the engagement id is kept as given. */
    constructor (name: string, description: string, storage: Option<seq<T>> := None, engagementId: Option<string> := None)
      ensures this.name == name && this.description == description && this.engagementId == engagementId
      ensures storage.None? ==> this.storage == []
      ensures storage.Some? ==> this.storage == storage.value
    {
      this.name := name;
      this.description := description;
      this.storage := if storage.Some? && storage.value != [] then storage.value else [];
      this.engagementId := engagementId;
    }

    /** `add_storage`: appends at the end; earlier items stay as they were. */
    method AddStorage(data: T)
      modifies this`storage
      ensures storage == old(storage) + [data]
      ensures GetStorage() == Some(data)
    {
      storage := storage + [data];
    }

    /** `get_storage`: the last item, or None when nothing is stored. */
    function GetStorage(): (r: Option<T>)
      reads this`storage
      ensures r.None? <==> storage == []
      ensures r.Some? ==> r.value == storage[|storage| - 1]
    {
      if storage != [] then Some(storage[|storage| - 1]) else None
    }
  }
}
