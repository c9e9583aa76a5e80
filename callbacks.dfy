/**
 * A window's two callback tables (event type -> callback and window-event
 * subtype -> callback) and the rules by which the setters update them.
 */
module Callbacks {
  import opened Wrappers

  /**
   * A non-empty std::function<bool(SDL_Event const&)>. `User(tag)` is a
   * caller-supplied function whose answer the model receives from outside;
   * `DefaultClose` is the window's own close callback bound to that window.
   */
  datatype Callback = User(tag: nat) | DefaultClose

  /**
   * What setEventCallback / setWindowEventCallback leave in a table: a null
   * callback (`None`) erases the key, any other callback stores or
   * overwrites it. No other key is touched.
   */
  function Set<K(!new)>(table: map<K, Callback>, key: K, callback: Option<Callback>): (t: map<K, Callback>)
    ensures key in t <==> callback.Some?
    ensures callback.Some? ==> t[key] == callback.value
    ensures forall k :: k != key ==> (k in t <==> k in table)
    ensures forall k :: k != key && k in table ==> t[k] == table[k]
  {
    match callback
    case None => table - {key}
    case Some(cb) => table[key := cb]
  }

  /**
   * hasEventCallback / hasWindowEventCallback: the entry exists and is not
   * null. The tables never hold null (see Set), so presence decides it.
   */
  predicate Has<K>(table: map<K, Callback>, key: K) {
    key in table
  }

  /** After a set, `key` is present exactly when the callback was non-null; other keys answer as before. */
  lemma HasAfterSet<K(!new)>(table: map<K, Callback>, key: K, callback: Option<Callback>, k: K)
    ensures Has(Set(table, key, callback), k) == if k == key then callback.Some? else Has(table, k)
  {
  }

  /** Setting a callback and then setting null (the setters' default argument) removes every trace of the key. */
  lemma SetThenClear<K(!new)>(table: map<K, Callback>, key: K, cb: Callback)
    ensures Set(Set(table, key, Some(cb)), key, None) == table - {key}
  {
  }
}
