/** Per-collection stores whose entries carry a sealed copy of their content
    (enclave/memory/manager.py:20-160). Sealing is abstract; a sound sealing unseals, under
    the same key, to what was sealed. */
module MemoryManager {
  import opened VectorStore

  datatype Unsealed = Opened(content: string) | Broken

  /** `key` derives a collection's key; `seal` takes the random nonce as an argument and
      `words` splits a text into lower-case words. */
  datatype Crypto = Crypto(
    key: string -> string,
    seal: (string, string, string) -> string,
    unseal: (string, string) -> Unsealed,
    words: string -> set<string>)

  ghost predicate Sound(c: Crypto) {
    forall content, k, nonce {:trigger c.seal(content, k, nonce)} ::
      c.seal(content, k, nonce) != "" && c.unseal(c.seal(content, k, nonce), k) == Opened(content)
  }

  const SEALED_COPY := "_encrypted"
  const COLLECTION := "_collection"

  /** The entry stored for a content: the manager's own metadata win over the caller's. */
  function Sealed(c: Crypto, id: string, content: string, collection: string, metadata: map<string, string>, nonce: string): Entry {
    Entry(id, content,
          metadata[SEALED_COPY := c.seal(content, c.key(collection), nonce)][COLLECTION := collection])
  }

  /** `verify_encrypted_entry`. */
  function Verify(c: Crypto, e: Entry, collection: string): Unsealed {
    if SEALED_COPY !in e.metadata || e.metadata[SEALED_COPY] == "" then Opened(e.content)
    else c.unseal(e.metadata[SEALED_COPY], c.key(collection))
  }

  ghost predicate Verifies(c: Crypto, e: Entry, collection: string) {
    && Verify(c, e, collection) == Opened(e.content)
    && COLLECTION in e.metadata && e.metadata[COLLECTION] == collection
  }

  ghost predicate AllVerify(c: Crypto, history: map<string, seq<Entry>>) {
    forall collection :: collection in history ==>
      forall e <- history[collection] :: Verifies(c, e, collection)
  }

  lemma AllVerifyAppend(c: Crypto, history: map<string, seq<Entry>>, collection: string, e: Entry)
    requires AllVerify(c, history) && collection in history && Verifies(c, e, collection)
    ensures AllVerify(c, history[collection := history[collection] + [e]])
  {
    hide Verifies;
  }

  lemma SealedVerifies(c: Crypto, id: string, content: string, collection: string, metadata: map<string, string>, nonce: string)
    requires Sound(c)
    ensures var e := Sealed(c, id, content, collection, metadata, nonce);
            && Verifies(c, e, collection)
            && "_encrypted" in e.metadata && c.unseal(e.metadata["_encrypted"], c.key(collection)) == Opened(content)
  {
    var e := Sealed(c, id, content, collection, metadata, nonce);
    assert SEALED_COPY != COLLECTION;
    assert e.metadata[SEALED_COPY] == c.seal(content, c.key(collection), nonce);
  }

  /** A stored entry has the caller's id, content and metadata, save for two names of them. */
  lemma SealedKeeps(c: Crypto, id: string, content: string, collection: string, metadata: map<string, string>, nonce: string)
    ensures var e := Sealed(c, id, content, collection, metadata, nonce);
            && e.id == id && e.content == content
            && e.metadata.Keys == metadata.Keys + {"_encrypted", "_collection"}
            && forall name <- metadata :: name != "_encrypted" && name != "_collection" ==> e.metadata[name] == metadata[name]
  {
  }

  /** Whoever changes the content of a stored entry cannot hide it: the entry still opens to
      the content that was stored, and so agrees with its own exactly if nothing changed. */
  lemma TamperingShows(c: Crypto, id: string, content: string, collection: string, metadata: map<string, string>,
                       nonce: string, changed: string)
    requires Sound(c)
    ensures var e := Sealed(c, id, content, collection, metadata, nonce).(content := changed);
            && Verify(c, e, collection) == Opened(content)
            && (Verifies(c, e, collection) <==> changed == content)
  {
    SealedVerifies(c, id, content, collection, metadata, nonce);
  }

  class MemoryManager {
    const crypto: Crypto
    const maxEntries: int
    var stores: map<string, SimpleVectorStore>
    /** Everything ever stored, by collection. */
    ghost var history: map<string, seq<Entry>>

    /** Each collection has a store of its own that holds what its history leaves. */
    ghost predicate Valid()
      reads this, stores.Values
    {
      && stores.Keys == history.Keys
      && (forall c :: c in stores ==>
            stores[c].capacity == maxEntries && stores[c].entries == Contents(maxEntries, history[c]))
      && (forall c, d :: c in stores && d in stores && stores[c] == stores[d] ==> c == d)
      && AllVerify(crypto, history)
    }

    ghost function HistoryOf(collection: string): seq<Entry>
      reads this
    {
      if collection in history then history[collection] else []
    }

    constructor (crypto: Crypto, maxEntries: int)
      ensures Valid() && history == map[] && this.crypto == crypto && this.maxEntries == maxEntries
    {
      this.crypto, this.maxEntries := crypto, maxEntries;
      this.stores, this.history := map[], map[];
    }

    /** `_get_store`: a collection's store is created on first use, by searches too. */
    method GetStore(collection: string) returns (store: SimpleVectorStore)
      requires Valid()
      modifies this
      ensures Valid() && collection in stores && store == stores[collection]
      ensures history == old(history)[collection := old(HistoryOf(collection))]
      ensures forall s <- stores.Values :: s in old(stores.Values) || fresh(s)
      ensures forall s <- old(stores.Values) :: s.entries == old(s.entries)
    {
      if collection !in stores {
        var created := new SimpleVectorStore(maxEntries);
        stores := stores[collection := created];
        history := history[collection := []];
      }
      store := stores[collection];
      assert stores[collection] in stores.Values;
    }

    /** Storing extends the history of one collection by a sealed entry and touches no
        other collection. */
    method Store(id: string, content: string, collection: string, metadata: map<string, string>, nonce: string)
      requires Valid() && Sound(crypto)
      modifies this, stores.Values
      ensures Valid()
      ensures history == old(history)[collection :=
                old(HistoryOf(collection)) + [Sealed(crypto, id, content, collection, metadata, nonce)]]
    {
      var e := Sealed(crypto, id, content, collection, metadata, nonce);
      SealedVerifies(crypto, id, content, collection, metadata, nonce);
      hide Sealed, Verifies;
      Put(e, collection);
    }

    method Put(e: Entry, collection: string)
      requires Valid() && Verifies(crypto, e, collection)
      modifies this, stores.Values
      ensures Valid()
      ensures history == old(history)[collection := old(HistoryOf(collection)) + [e]]
    {
      hide Verifies, Contents, Stored, AllVerify;
      var store := GetStore(collection);
      ghost var all := history[collection];
      ContentsOfAppend(maxEntries, all, e);
      AllVerifyAppend(crypto, history, collection, e);
      store.Store(e);
      history := history[collection := all + [e]];
    }

    /** A search ranks what the history of its own collection left in the store, and every
        entry found unseals under the collection's key to its content. */
    method Search(query: set<string>, collection: string, n: int) returns (found: seq<Entry>)
      requires Valid()
      modifies this
      ensures Valid()
      ensures history == old(history)[collection := old(HistoryOf(collection))]
      ensures found == SearchResult(query, crypto.words, Contents(maxEntries, old(HistoryOf(collection))), n)
      ensures forall e <- found :: Verifies(crypto, e, collection)
    {
      var store := GetStore(collection);
      found := store.Search(query, crypto.words, n);
      FoundIsStored(query, crypto.words, store.entries, n);
      ContentsAreFromHistory(maxEntries, history[collection]);
    }

    method CollectionCount(collection: string) returns (count: nat)
      requires Valid()
      ensures count == |Contents(maxEntries, HistoryOf(collection))|
    {
      count := if collection in stores then |stores[collection].entries| else 0;
    }
  }

  lemma ContentsOfAppend(capacity: int, all: seq<Entry>, e: Entry)
    ensures Contents(capacity, all + [e]) == Stored(Contents(capacity, all), capacity, e)
  {
    assert (all + [e])[..|all|] == all;
  }

  lemma FoundIsStored(query: set<string>, words: string -> set<string>, entries: seq<Entry>, n: int)
    ensures forall e <- SearchResult(query, words, entries, n) :: e in entries
  {
    var matches := Matches(query, words, entries);
    var ranked := SortDescending(matches);
    SortMeets(matches, 0.0);
    MatchesShare(query, words, entries);
    hide Matches, SortDescending, WithScore;
    forall e | e in SearchResult(query, words, entries, n) ensures e in entries {
      var m :| m in FirstSlice(ranked, n) && m.entry == e;
      assert m in multiset(matches);
    }
  }

  lemma {:induction false} ContentsAreFromHistory(capacity: int, all: seq<Entry>)
    ensures forall e <- Contents(capacity, all) :: e in all
  {
    if all != [] {
      var front, e := all[..|all| - 1], all[|all| - 1];
      ContentsAreFromHistory(capacity, front);
      StoredIsFrom(Contents(capacity, front), capacity, e);
      assert all == front + [e];
      hide Stored;
    }
  }

  lemma StoredIsFrom(entries: seq<Entry>, capacity: int, e: Entry)
    ensures forall x <- Stored(entries, capacity, e) :: x in entries || x == e
  {
    var grown := entries + [e];
    forall x | x in Stored(entries, capacity, e) ensures x in grown {}
  }
}
