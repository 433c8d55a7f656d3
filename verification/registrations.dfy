/** The configuration a processor map builder accumulates, seen as the
    history of its successful registration calls.

    TableOf and DefaultOf replay a history the way the builder's methods
    update their fields, one call after the other. Routes is an independent
    reference definition that looks only at the history: a key goes to the
    processor of its LAST entry, an unregistered key to the LAST default,
    and nowhere when no default was ever set. The lemmas connect the two. */
module Registrations {
  import opened Outcomes

  /** One successful builder call: addEntry(key, processor) or
      setDefaultProcessor(processor). */
  datatype Registration<K, P> = Entry(key: K, processor: P) | Default(processor: P)

  /** The binding table after replaying history h from an empty map. */
  ghost function TableOf<K, P>(h: seq<Registration<K, P>>): map<K, P>
    decreases |h|
  {
    if h == [] then map[]
    else
      var t := TableOf(h[..|h| - 1]);
      match h[|h| - 1]
      case Entry(k, p) => t[k := p]
      case Default(_) => t
  }

  /** The default slot after replaying history h from an empty slot. */
  ghost function DefaultOf<K, P>(h: seq<Registration<K, P>>): Option<P>
    decreases |h|
  {
    if h == [] then None
    else
      match h[|h| - 1]
      case Default(p) => Some(p)
      case Entry(_, _) => DefaultOf(h[..|h| - 1])
  }

  ghost predicate EntryFor<K, P>(r: Registration<K, P>, k: K) {
    r.Entry? && r.key == k
  }

  /** Key k was registered at least once in h. */
  ghost predicate Registered<K, P>(h: seq<Registration<K, P>>, k: K) {
    exists j :: 0 <= j < |h| && EntryFor(h[j], k)
  }

  /** h[i] is the last registration of key k in h. */
  ghost predicate LastEntryAt<K, P>(h: seq<Registration<K, P>>, k: K, i: int) {
    && 0 <= i < |h|
    && EntryFor(h[i], k)
    && forall j :: i < j < |h| ==> !EntryFor(h[j], k)
  }

  /** A default processor was set at least once in h. */
  ghost predicate DefaultSet<K, P>(h: seq<Registration<K, P>>) {
    exists j :: 0 <= j < |h| && h[j].Default?
  }

  /** h[i] is the last default-processor registration in h. */
  ghost predicate LastDefaultAt<K, P>(h: seq<Registration<K, P>>, i: int) {
    && 0 <= i < |h|
    && h[i].Default?
    && forall j :: i < j < |h| ==> !h[j].Default?
  }

  /** Reference routing: after history h, a derived key is sent to the
      processor of its last entry; failing that (an absent key, or one never
      registered) to the last default; failing that, nowhere. */
  ghost predicate Routes<K, P>(h: seq<Registration<K, P>>, key: Option<K>, p: Option<P>) {
    if key.Some? && Registered(h, key.value) then
      exists i :: LastEntryAt(h, key.value, i) && p == Some(h[i].processor)
    else if DefaultSet(h) then
      exists i :: LastDefaultAt(h, i) && p == Some(h[i].processor)
    else
      p == None
  }

  /** Last write wins: the table binds k to the processor of its last entry,
      whatever came before or after it. */
  lemma {:induction false} LastEntryWins<K, P>(h: seq<Registration<K, P>>, k: K, i: int)
    requires LastEntryAt(h, k, i)
    ensures k in TableOf(h) && TableOf(h)[k] == h[i].processor
  {
    var n := |h| - 1;
    if i < n {
      var front := h[..n];
      assert !EntryFor(h[n], k);
      assert forall j :: 0 <= j < n ==> front[j] == h[j];
      assert LastEntryAt(front, k, i);
      LastEntryWins(front, k, i);
    }
  }

  /** A key that was never registered is not bound. */
  lemma {:induction false} UnregisteredUnbound<K, P>(h: seq<Registration<K, P>>, k: K)
    requires !Registered(h, k)
    ensures k !in TableOf(h)
  {
    if h != [] {
      var n := |h| - 1;
      var front := h[..n];
      assert !EntryFor(h[n], k);
      assert forall j :: 0 <= j < n ==> front[j] == h[j];
      UnregisteredUnbound(front, k);
    }
  }

  /** The default slot holds the processor of the last default registration. */
  lemma {:induction false} LastDefaultWins<K, P>(h: seq<Registration<K, P>>, i: int)
    requires LastDefaultAt(h, i)
    ensures DefaultOf(h) == Some(h[i].processor)
  {
    var n := |h| - 1;
    if i < n {
      var front := h[..n];
      assert !h[n].Default?;
      assert forall j :: 0 <= j < n ==> front[j] == h[j];
      assert LastDefaultAt(front, i);
      LastDefaultWins(front, i);
    }
  }

  /** Without a default registration the slot stays empty. */
  lemma {:induction false} NoDefaultEmpty<K, P>(h: seq<Registration<K, P>>)
    requires !DefaultSet(h)
    ensures DefaultOf(h) == None
  {
    if h != [] {
      var n := |h| - 1;
      var front := h[..n];
      assert !h[n].Default?;
      assert forall j :: 0 <= j < n ==> front[j] == h[j];
      NoDefaultEmpty(front);
    }
  }

  /** A registered key has a last entry. */
  lemma {:induction false} FindLastEntry<K, P>(h: seq<Registration<K, P>>, k: K) returns (i: int)
    requires Registered(h, k)
    ensures LastEntryAt(h, k, i)
  {
    var n := |h| - 1;
    if EntryFor(h[n], k) {
      i := n;
    } else {
      var front := h[..n];
      var j :| 0 <= j < |h| && EntryFor(h[j], k);
      assert front[j] == h[j];
      i := FindLastEntry(front, k);
      assert forall m :: 0 <= m < n ==> front[m] == h[m];
    }
  }

  /** A history that set a default has a last default registration. */
  lemma {:induction false} FindLastDefault<K, P>(h: seq<Registration<K, P>>) returns (i: int)
    requires DefaultSet(h)
    ensures LastDefaultAt(h, i)
  {
    var n := |h| - 1;
    if h[n].Default? {
      i := n;
    } else {
      var front := h[..n];
      var j :| 0 <= j < |h| && h[j].Default?;
      assert front[j] == h[j];
      i := FindLastDefault(front);
      assert forall m :: 0 <= m < n ==> front[m] == h[m];
    }
  }

  /** The replayed table and slot route every key exactly as the reference
      says. */
  lemma ReplayRoutes<K, P>(h: seq<Registration<K, P>>, key: Option<K>)
    ensures Routes(h, key, if key.Some? && key.value in TableOf(h) then Some(TableOf(h)[key.value]) else DefaultOf(h))
  {
    var t := TableOf(h);
    if key.Some? && Registered(h, key.value) {
      var i := FindLastEntry(h, key.value);
      LastEntryWins(h, key.value, i);
    } else {
      if key.Some? {
        UnregisteredUnbound(h, key.value);
      }
      if DefaultSet(h) {
        var i := FindLastDefault(h);
        LastDefaultWins(h, i);
      } else {
        NoDefaultEmpty(h);
      }
    }
  }

  /** The reference routing is deterministic: a history sends a key to at
      most one place. */
  lemma RoutesUnique<K, P>(h: seq<Registration<K, P>>, key: Option<K>, p1: Option<P>, p2: Option<P>)
    requires Routes(h, key, p1) && Routes(h, key, p2)
    ensures p1 == p2
  {
  }
}
