/** The delete validators (internal/webhook/delete_validation.go). */
module Webhook {
  import opened Wrappers
  import opened Api

  /** Whether the API server's delete call passes the validators; only three kinds have one. */
  predicate Admits(w: World, ref: Ref) {
    match ref
    case ProjectEntityRef(k) => forall t | t in w.trusts :: w.trusts[t].spec.projectEntity != k
    case TrustRef(k) => forall e | e in w.entities && e.namespace == k.namespace :: w.entities[e].spec.trust != k.name
    case EntityRef(k) => forall b | b in w.bindings && b.namespace == k.namespace :: k.name !in w.bindings[b].spec.refs
    case _ => true
  }

  /** A listing names exactly the objects of the selected namespaces, in some order. */
  ghost predicate Lists<V>(listing: seq<Key>, objects: map<Key, V>, namespaces: Option<string>) {
    forall k :: k in listing <==> k in objects && (namespaces.Some? ==> k.namespace == namespaces.value)
  }

  method ValidateProjectEntityDelete(w: World, key: Key, listing: seq<Key>) returns (admitted: bool)
    requires Lists(listing, w.trusts, None)
    ensures admitted <==> Admits(w, ProjectEntityRef(key))
  {
    for i := 0 to |listing|
      invariant forall j | 0 <= j < i :: w.trusts[listing[j]].spec.projectEntity != key
    {
      assert listing[i] in listing;
      var ref := w.trusts[listing[i]].spec.projectEntity;
      if ref.namespace == key.namespace && ref.name == key.name {
        return false;
      }
    }
    return true;
  }

  method ValidateTrustDelete(w: World, key: Key, listing: seq<Key>) returns (admitted: bool)
    requires Lists(listing, w.entities, Some(key.namespace))
    ensures admitted <==> Admits(w, TrustRef(key))
  {
    for i := 0 to |listing|
      invariant forall j | 0 <= j < i :: w.entities[listing[j]].spec.trust != key.name
    {
      assert listing[i] in listing;
      if w.entities[listing[i]].spec.trust == key.name {
        return false;
      }
    }
    return true;
  }

  method ValidateEntityDelete(w: World, key: Key, listing: seq<Key>) returns (admitted: bool)
    requires Lists(listing, w.bindings, Some(key.namespace))
    ensures admitted <==> Admits(w, EntityRef(key))
  {
    for i := 0 to |listing|
      invariant forall j | 0 <= j < i :: key.name !in w.bindings[listing[j]].spec.refs
    {
      assert listing[i] in listing;
      var refs := w.bindings[listing[i]].spec.refs;
      for r := 0 to |refs|
        invariant key.name !in refs[..r]
      {
        if refs[r] == key.name {
          return false;
        }
      }
      assert refs[..|refs|] == refs;
    }
    return true;
  }
}
