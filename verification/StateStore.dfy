// core/state_store.py: a saved value replaced as a whole, so a reader sees one save or another.
module StateStore {
  class StateStore<T> {
    var saved: T

    constructor (initial: T)
      ensures saved == initial
    {
      saved := initial;
    }

    method Save(payload: T)
      modifies this
      ensures saved == payload
    {
      saved := payload;
    }
  }
}
