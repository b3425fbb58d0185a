/** billing/templatetags/billing_extras.py: the `getitem` template filter. */
module BillingExtras {
  import opened Common

  /** What a template may hand the filter: a dictionary (whose `.get`
      always works), a sequence (no `.get`, but `obj[key]` works for an
      index in range), or a value that supports neither. */
  datatype Subject<!K, V> =
    | Dict(entries: map<K, V>)
    | Indexable(items: seq<V>, indexOf: K -> Option<nat>)
    | Opaque

  /** `getitem(obj, key)`: `obj.get(key)`; if that raises, `obj[key]`; if
      that raises too, `None`. It never raises. */
  function GetItem<K, V>(obj: Subject<K, V>, key: K): (r: Option<V>)
    ensures obj.Dict? ==> (r.Some? <==> key in obj.entries)
    ensures obj.Dict? && key in obj.entries ==> r == Some(obj.entries[key])
    ensures obj.Indexable? ==>
      var i := obj.indexOf(key);
      r == (if i.Some? && i.value < |obj.items| then Some(obj.items[i.value]) else None)
    ensures obj.Opaque? ==> r.None?
  {
    match obj
    case Dict(m) => if key in m then Some(m[key]) else None
    case Indexable(items, indexOf) =>
      var i := indexOf(key);
      if i.Some? && i.value < |items| then Some(items[i.value]) else None
    case Opaque => None
  }

  /** A found value is one the subject holds. */
  lemma GetItemFound<K, V>(obj: Subject<K, V>, key: K)
    ensures GetItem(obj, key).Some? ==>
      (obj.Dict? && GetItem(obj, key).value in obj.entries.Values)
      || (obj.Indexable? && GetItem(obj, key).value in obj.items)
  {
  }
}
