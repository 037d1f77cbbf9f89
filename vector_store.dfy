/**
 * The per-user document store of `services/vectorstore_manager.py`, kept as
 * the list of texts it holds. Embeddings and the FAISS index are not modelled,
 * and neither is the similarity search over them.
 */
module VectorStore {
  import opened ConversationHistory

  /** A document's metadata `type`: the system seed or a message with its role. */
  datatype DocKind = SystemDoc | MessageDoc(role: Role)

  datatype Doc = Doc(content: string, kind: DocKind)

  /** The seed document of `_create_new_vectorstore`; `when` is the formatted clock reading. */
  function SeedDoc(u: string, when: string): (d: Doc)
    ensures d.kind == SystemDoc
  {
    Doc("Início da conversa com o usuário " + u + " em " + when, SystemDoc)
  }

  /**
   * `_get_or_create_vectorstore`, as the documents of the store it yields
   * while every cached store is the saved one: the saved store, or a new one
   * holding only the seed document.
   */
  function Opened(disk: map<string, seq<Doc>>, u: string, when: string): (docs: seq<Doc>)
    ensures u !in disk ==> docs == [SeedDoc(u, when)]
  {
    if u in disk then disk[u] else [SeedDoc(u, when)]
  }

  /**
   * `VectorStoreManager`: `cache` is `self.user_vectorstores`, `disk` the
   * vector-store directory, each store as the documents it holds in order.
   */
  class VectorStoreManager {
    var cache: map<string, seq<Doc>>
    var disk: map<string, seq<Doc>>

    /** Every cached store is also the one saved on disk. */
    predicate Valid()
      reads this
    {
      forall u :: u in cache ==> u in disk && disk[u] == cache[u]
    }

    constructor (stored: map<string, seq<Doc>>)
      ensures Valid()
      ensures cache == map[] && disk == stored
    {
      cache := map[];
      disk := stored;
    }

    /** `_get_or_create_vectorstore`: afterwards the user's store is cached and saved. */
    method GetOrCreate(u: string, when: string)
      requires Valid()
      modifies this
      ensures Valid()
      ensures cache == old(cache)[u := Opened(old(disk), u, when)]
      ensures disk == old(disk)[u := Opened(old(disk), u, when)]
    {
      if u in cache {
        return;
      }
      if u in disk {
        cache := cache[u := disk[u]];
        return;
      }
      var docs := [SeedDoc(u, when)];
      disk := disk[u := docs];
      cache := cache[u := docs];
    }

    /** `add_message`: the message becomes the store's last document, and the store is saved. */
    method AddMessage(u: string, message: string, isUser: bool, when: string)
      requires Valid()
      modifies this
      ensures Valid()
      ensures disk == old(disk)[u := Opened(old(disk), u, when) + [Doc(message, MessageDoc(RoleOf(isUser)))]]
      ensures cache == old(cache)[u := disk[u]]
    {
      ghost var disk0 := disk;
      GetOrCreate(u, when);
      var role := if isUser then User else Assistant;
      var docs := cache[u] + [Doc(message, MessageDoc(role))];
      assert docs == Opened(disk0, u, when) + [Doc(message, MessageDoc(RoleOf(isUser)))];
      cache := cache[u := docs];
      disk := disk[u := docs];
      assert disk == disk0[u := docs];
    }

    /** `clear_vectorstore`: the user's store leaves both the cache and the disk. */
    method ClearVectorstore(u: string)
      modifies this
      ensures cache == old(cache) - {u}
      ensures disk == old(disk) - {u}
    {
      if u in cache {
        cache := cache - {u};
      }
      if u in disk {
        disk := disk - {u};
      }
    }
  }

  /** A user's first message lands in a new store right after its seed document. */
  method FirstMessageAfterSeed(m: VectorStoreManager, u: string, message: string, when: string)
    requires m.Valid() && u !in m.cache && u !in m.disk
    modifies m
    ensures u in m.disk && m.disk[u] == [SeedDoc(u, when), Doc(message, MessageDoc(User))]
  {
    m.AddMessage(u, message, true, when);
  }
}
