/** Optimistic concurrency over one versioned record: clients hold snapshots of any age, and a
    save is accepted only when the saved snapshot's version is still the current one. */
module Optimistic {

  datatype Versioned<T> = Versioned(value: T, version: nat)

  /** The stored record and the snapshot each client last read. */
  datatype System<T> = System(current: Versioned<T>, held: map<nat, Versioned<T>>)

  function Read<T>(s: System<T>, client: nat): System<T> {
    s.(held := s.held[client := s.current])
  }

  predicate Accepts<T(==)>(s: System<T>, client: nat) {
    client in s.held && s.held[client].version == s.current.version
  }

  function Save<T>(s: System<T>, client: nat, next: T): System<T> {
    if client in s.held && s.held[client].version == s.current.version
    then s.(current := Versioned(next, s.current.version + 1)) else s
  }

  /** A held snapshot is an old version, or it is the current record. */
  ghost predicate Coherent<T>(s: System<T>) {
    forall c :: c in s.held ==>
      s.held[c].version < s.current.version || s.held[c] == s.current
  }

  lemma ReadCoherent<T>(s: System<T>, client: nat)
    requires Coherent(s)
    ensures Coherent(Read(s, client))
  {
  }

  /** An accepted save was computed from the record it replaces. */
  lemma SaveCoherent<T>(s: System<T>, client: nat, next: T)
    requires Coherent(s)
    ensures Coherent(Save(s, client, next))
    ensures Accepts(s, client) ==> s.held[client] == s.current && Save(s, client, next).current.value == next
    ensures !Accepts(s, client) ==> Save(s, client, next) == s
  {
  }
}
