/**
 Looking up catalog entries by id or alias: the desktop's hash index against the backend's scan.
 Results are positions in the catalog; `norm` trims and lower-cases an identifier.
 */
module ProviderCatalog {
  import opened Common

  datatype CatalogEntry = CatalogEntry(providerId: string, aliases: seq<string>, details: Payload)

  /** The entry is found under an already normalised identifier. */
  predicate Owns(norm: string -> string, e: CatalogEntry, id: string) {
    norm(e.providerId) == id || exists i :: 0 <= i < |e.aliases| && norm(e.aliases[i]) == id
  }

  function LastOwner(norm: string -> string, entries: seq<CatalogEntry>, id: string): Option<nat> {
    if entries == [] then None
    else if Owns(norm, entries[|entries| - 1], id) then Some(|entries| - 1)
    else LastOwner(norm, entries[..|entries| - 1], id)
  }

  function FirstOwner(norm: string -> string, entries: seq<CatalogEntry>, id: string): Option<nat> {
    if entries == [] then None
    else
      var earlier := FirstOwner(norm, entries[..|entries| - 1], id);
      if earlier.Some? then earlier
      else if Owns(norm, entries[|entries| - 1], id) then Some(|entries| - 1)
      else None
  }

  // -------------------------------------------------------- the desktop's index

  ghost predicate Indexes(norm: string -> string, entries: seq<CatalogEntry>, index: map<string, nat>) {
    && (forall id :: id in index <==> LastOwner(norm, entries, id).Some?)
    && (forall id :: id in index ==> LastOwner(norm, entries, id) == Some(index[id]))
  }

  /** Later entries overwrite earlier ones, and within an entry the aliases follow the id. */
  method BuildIndex(norm: string -> string, entries: seq<CatalogEntry>) returns (index: map<string, nat>)
    ensures Indexes(norm, entries, index)
  {
    index := map[];
    for i := 0 to |entries|
      invariant Indexes(norm, entries[..i], index)
    {
      var e := entries[i];
      ghost var before := index;
      index := index[norm(e.providerId) := i];
      for j := 0 to |e.aliases|
        invariant forall id :: id in index <==> id in before || Named(norm, e, j, id)
        invariant forall id :: id in index ==> index[id] == if Named(norm, e, j, id) then i else before[id]
      {
        index := index[norm(e.aliases[j]) := i];
      }
      assert forall id :: Named(norm, e, |e.aliases|, id) <==> Owns(norm, e, id);
      assert entries[..i + 1][..i] == entries[..i];
    }
    assert entries[..|entries|] == entries;
  }

  /** The entry's id or one of its first n aliases. */
  predicate Named(norm: string -> string, e: CatalogEntry, n: nat, id: string)
    requires n <= |e.aliases|
  {
    norm(e.providerId) == id || exists i :: 0 <= i < n && norm(e.aliases[i]) == id
  }

  method IndexLookup(norm: string -> string, entries: seq<CatalogEntry>, query: string) returns (r: Option<nat>)
    ensures r == if norm(query) == "" then None else LastOwner(norm, entries, norm(query))
  {
    var id := norm(query);
    if id == "" {
      return None;
    }
    var index := BuildIndex(norm, entries);
    r := if id in index then Some(index[id]) else None;
  }

  // ---------------------------------------------------------- the backend's scan

  /** What validation leaves in the backend's catalog: identifiers equal their normal forms. */
  predicate Validated(norm: string -> string, e: CatalogEntry) {
    && norm(e.providerId) == e.providerId && e.providerId != ""
    && forall i :: 0 <= i < |e.aliases| ==> norm(e.aliases[i]) == e.aliases[i] && e.aliases[i] != ""
  }

  predicate AllValidated(norm: string -> string, entries: seq<CatalogEntry>) {
    forall i :: 0 <= i < |entries| ==> Validated(norm, entries[i])
  }

  method ScanLookup(norm: string -> string, entries: seq<CatalogEntry>, query: string) returns (r: Option<nat>)
    requires AllValidated(norm, entries)
    ensures r == if norm(query) == "" then None else FirstOwner(norm, entries, norm(query))
  {
    var id := norm(query);
    if id == "" {
      return None;
    }
    for i := 0 to |entries|
      invariant FirstOwner(norm, entries[..i], id).None?
    {
      var e := entries[i];
      assert entries[..i + 1][..i] == entries[..i];
      assert Validated(norm, e);
      if e.providerId == id || id in e.aliases {
        FirstOwnerPrefix(norm, entries, i + 1, id);
        return Some(i);
      }
    }
    assert entries[..|entries|] == entries;
    r := None;
  }

  lemma {:induction false} FirstOwnerPrefix(norm: string -> string, entries: seq<CatalogEntry>, n: nat, id: string)
    requires n <= |entries| && FirstOwner(norm, entries[..n], id).Some?
    ensures FirstOwner(norm, entries, id) == FirstOwner(norm, entries[..n], id)
  {
    if n < |entries| {
      assert entries[..|entries| - 1][..n] == entries[..n];
      FirstOwnerPrefix(norm, entries[..|entries| - 1], n, id);
    } else {
      assert entries[..n] == entries;
    }
  }

  // ------------------------------------------------------------------ agreement

  lemma {:induction false} LastIsLast(norm: string -> string, entries: seq<CatalogEntry>, id: string)
    ensures match LastOwner(norm, entries, id)
            case None => forall i :: 0 <= i < |entries| ==> !Owns(norm, entries[i], id)
            case Some(k) => k < |entries| && Owns(norm, entries[k], id)
                            && forall i :: k < i < |entries| ==> !Owns(norm, entries[i], id)
  {
    if entries != [] {
      LastIsLast(norm, entries[..|entries| - 1], id);
    }
  }

  lemma {:induction false} FirstIsFirst(norm: string -> string, entries: seq<CatalogEntry>, id: string)
    ensures match FirstOwner(norm, entries, id)
            case None => forall i :: 0 <= i < |entries| ==> !Owns(norm, entries[i], id)
            case Some(k) => k < |entries| && Owns(norm, entries[k], id)
                            && forall i :: 0 <= i < k ==> !Owns(norm, entries[i], id)
  {
    if entries != [] {
      FirstIsFirst(norm, entries[..|entries| - 1], id);
    }
  }

  function Identifiers(e: CatalogEntry): seq<string> {
    [e.providerId] + e.aliases
  }

  /** No identifier of an entry is also one of another entry. */
  predicate Unshared(entries: seq<CatalogEntry>) {
    forall i, j :: 0 <= i < j < |entries| ==>
      forall n :: 0 <= n < |Identifiers(entries[i])| ==> Identifiers(entries[i])[n] !in Identifiers(entries[j])
  }

  lemma OwnsIdentifier(norm: string -> string, e: CatalogEntry, id: string)
    requires Validated(norm, e)
    ensures Owns(norm, e, id) <==> id in Identifiers(e)
    ensures id in Identifiers(e) ==> norm(id) == id && id != ""
  {
    if id in Identifiers(e) && id != e.providerId {
      assert id in e.aliases;
    }
    if id in e.aliases {
      assert id in Identifiers(e);
    }
    assert Identifiers(e)[0] == e.providerId;
  }

  /** The index and the scan agree on every query exactly when no identifier belongs to two entries. */
  lemma LookupsAgree(norm: string -> string, entries: seq<CatalogEntry>)
    requires AllValidated(norm, entries)
    ensures (forall query :: norm(query) != "" ==>
               LastOwner(norm, entries, norm(query)) == FirstOwner(norm, entries, norm(query)))
       <==> Unshared(entries)
  {
    if Unshared(entries) {
      forall id ensures LastOwner(norm, entries, id) == FirstOwner(norm, entries, id) {
        LastIsLast(norm, entries, id);
        FirstIsFirst(norm, entries, id);
        var last, first := LastOwner(norm, entries, id), FirstOwner(norm, entries, id);
        if last.Some? && first.Some? && first.value < last.value {
          OwnsIdentifier(norm, entries[first.value], id);
          OwnsIdentifier(norm, entries[last.value], id);
        }
      }
    } else {
      var i, j, n :| 0 <= i < j < |entries| && 0 <= n < |Identifiers(entries[i])|
                     && Identifiers(entries[i])[n] in Identifiers(entries[j]);
      var id := Identifiers(entries[i])[n];
      OwnsIdentifier(norm, entries[i], id);
      OwnsIdentifier(norm, entries[j], id);
      LastIsLast(norm, entries, id);
      FirstIsFirst(norm, entries, id);
      assert norm(id) == id;
    }
  }
}
