/**
 Looking a key up by its name in the provider's paged listing (openrouter-management.ts).

 The retry gate of a managed operation rests on "not found" meaning "does not exist"; the lookup
 reads at most twenty pages of a hundred, and this says exactly when its answer can be trusted.
 */
module ProviderListing {
  import opened Common

  type KeyHash = string

  /** An entry of the listing; a malformed one has no usable name or hash. */
  datatype Entry = Entry(name: Option<string>, hash: Option<KeyHash>)

  const PAGE_SIZE: nat := 100
  const MAX_PAGES: nat := 20

  function Horizon(): nat { PAGE_SIZE * MAX_PAGES }

  predicate Names(e: Entry, name: string) {
    e.name == Some(name) && e.hash.Some?
  }

  function Page(listing: seq<Entry>, offset: nat): (page: seq<Entry>)
    requires offset <= |listing|
    ensures |page| <= PAGE_SIZE
  {
    if offset + PAGE_SIZE <= |listing| then listing[offset..offset + PAGE_SIZE] else listing[offset..]
  }

  /** findManagedChildKeyByName over a listing that does not change while it is read. */
  method FindManagedChildKeyByName(listing: seq<Entry>, name: string) returns (found: Option<KeyHash>)
    ensures found.Some? ==>
              exists i :: 0 <= i < |listing| && i < Horizon() && Names(listing[i], name) && listing[i].hash == found
                && forall j :: 0 <= j < i ==> !Names(listing[j], name)
    ensures found.None? <==> forall i :: 0 <= i < |listing| && i < Horizon() ==> !Names(listing[i], name)
  {
    var offset := 0;
    for page := 0 to MAX_PAGES
      invariant offset == page * PAGE_SIZE <= |listing|
      invariant forall i :: 0 <= i < offset ==> !Names(listing[i], name)
    {
      var entries := Page(listing, offset);
      for k := 0 to |entries|
        invariant forall i :: 0 <= i < offset + k ==> !Names(listing[i], name)
      {
        assert entries[k] == listing[offset + k];
        if entries[k].name == Some(name) && entries[k].hash.Some? { return entries[k].hash; }
      }
      if |entries| < PAGE_SIZE { return None; }
      offset := offset + |entries|;
    }
    return None;
  }

  /** What the lookup answers, as a function of the listing. */
  ghost predicate AnswersNotFound(listing: seq<Entry>, name: string) {
    forall i :: 0 <= i < |listing| && i < Horizon() ==> !Names(listing[i], name)
  }

  ghost predicate Exists(listing: seq<Entry>, name: string) {
    exists i :: 0 <= i < |listing| && Names(listing[i], name)
  }

  /** "Not found" can be trusted for every name exactly when no named entry lies beyond the horizon unseen. */
  lemma NotFoundIsTrueExactlyWithinHorizon(listing: seq<Entry>)
    ensures (forall name :: AnswersNotFound(listing, name) ==> !Exists(listing, name)) <==>
            (forall j :: Horizon() <= j < |listing| && listing[j].name.Some? && listing[j].hash.Some? ==>
               exists i :: 0 <= i < Horizon() && Names(listing[i], listing[j].name.value))
  {
    if forall name :: AnswersNotFound(listing, name) ==> !Exists(listing, name) {
      forall j | Horizon() <= j < |listing| && listing[j].name.Some? && listing[j].hash.Some?
        ensures exists i :: 0 <= i < Horizon() && Names(listing[i], listing[j].name.value)
      {
        assert Names(listing[j], listing[j].name.value);
        assert !AnswersNotFound(listing, listing[j].name.value);
      }
    } else {
      var name :| AnswersNotFound(listing, name) && Exists(listing, name);
      var j :| 0 <= j < |listing| && Names(listing[j], name);
      assert j >= Horizon();
    }
  }

  /** In particular it can be trusted for a listing of at most two thousand keys. */
  lemma ShortListingsAreSafe(listing: seq<Entry>, name: string)
    requires |listing| <= Horizon()
    ensures AnswersNotFound(listing, name) <==> !Exists(listing, name)
  {
  }
}
