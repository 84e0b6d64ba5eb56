/** The session registry's reverse index, as values. */
module Registry {
  import opened Types

  type SessionId = nat

  type Index = map<Channel, seq<SessionId>>

  /** `Vec::retain(|sid| sid != id)`. */
  function Without(ids: seq<SessionId>, id: SessionId): seq<SessionId> {
    if ids == [] then []
    else (if ids[0] == id then [] else [ids[0]]) + Without(ids[1..], id)
  }

  /** How often `id` is listed for `ch`. */
  function Listed(index: Index, ch: Channel, id: SessionId): nat {
    multiset(Get(index, ch, []))[id]
  }

  function AddTo(index: Index, id: SessionId, ch: Channel): Index {
    index[ch := Get(index, ch, []) + [id]]
  }

  function RemoveFrom(index: Index, id: SessionId, ch: Channel): Index {
    if ch !in index then index
    else if Without(index[ch], id) == [] then index - {ch}
    else index[ch := Without(index[ch], id)]
  }

  /** Drops `id` everywhere, and every channel that then lists nobody. */
  function Scrub(index: Index, id: SessionId): Index {
    map ch | ch in index && Without(index[ch], id) != [] :: Without(index[ch], id)
  }

  predicate NoEmptyLists(index: Index) {
    forall ch :: ch in index ==> index[ch] != []
  }

  lemma {:induction false} WithoutCounts(ids: seq<SessionId>, id: SessionId)
    ensures forall x :: multiset(Without(ids, id))[x] == if x == id then 0 else multiset(ids)[x]
  {
    if ids != [] {
      WithoutCounts(ids[1..], id);
      assert ids == [ids[0]] + ids[1..];
    }
  }

  lemma AddToCounts(index: Index, id: SessionId, ch: Channel)
    ensures forall c, x ::
      Listed(AddTo(index, id, ch), c, x) == Listed(index, c, x) + if c == ch && x == id then 1 else 0
    ensures NoEmptyLists(index) ==> NoEmptyLists(AddTo(index, id, ch))
  {
  }

  lemma RemoveFromCounts(index: Index, id: SessionId, ch: Channel)
    ensures forall c, x ::
      Listed(RemoveFrom(index, id, ch), c, x) == if c == ch && x == id then 0 else Listed(index, c, x)
    ensures NoEmptyLists(index) ==> NoEmptyLists(RemoveFrom(index, id, ch))
  {
    if ch in index {
      WithoutCounts(index[ch], id);
      assert Without(index[ch], id) == [] ==> multiset(Without(index[ch], id)) == multiset{};
    }
  }

  lemma ScrubCounts(index: Index, id: SessionId)
    ensures forall c, x :: Listed(Scrub(index, id), c, x) == if x == id then 0 else Listed(index, c, x)
    ensures NoEmptyLists(Scrub(index, id))
  {
    forall c, x ensures Listed(Scrub(index, id), c, x) == if x == id then 0 else Listed(index, c, x) {
      if c in index {
        WithoutCounts(index[c], id);
        assert Without(index[c], id) == [] ==> multiset(Without(index[c], id)) == multiset{};
      }
    }
  }
}
