/**
 * The in-memory OAuth client store: one table of clients keyed by client id,
 * shared by every storage instance, with save (insert or replace), delete and
 * fetch.
 */
module OAuthStorage {
  import opened Wrappers

  /** A registered client. Only the id matters to the store; `details` stands for the client's other fields. */
  datatype OAuthClient = OAuthClient(clientId: string, details: seq<string>)

  /** Every stored client sits under its own id. */
  ghost predicate KeyedById(m: map<string, OAuthClient>)
  {
    forall id :: id in m ==> m[id].clientId == id
  }

  /** The table after saving `c`: `c` under its id, every other id as it was, one more key only when the id was new. */
  function Saved(m: map<string, OAuthClient>, c: OAuthClient): (m': map<string, OAuthClient>)
    ensures c.clientId in m' && m'[c.clientId] == c
    ensures forall id :: id != c.clientId ==> (id in m' <==> id in m)
    ensures forall id :: id != c.clientId && id in m ==> m'[id] == m[id]
    ensures |m'| == if c.clientId in m then |m| else |m| + 1
    ensures KeyedById(m) ==> KeyedById(m')
  {
    var removed := if c.clientId in m then m - {c.clientId} else m;
    assert c.clientId in m ==> m.Keys == removed.Keys + {c.clientId};
    removed[c.clientId := c]
  }

  /** The table after deleting `id`: `id` absent, every other id as it was, one key fewer only when `id` was present. */
  function Deleted(m: map<string, OAuthClient>, id: string): (m': map<string, OAuthClient>)
    ensures id !in m'
    ensures forall k :: k != id ==> (k in m' <==> k in m)
    ensures forall k :: k != id && k in m ==> m'[k] == m[k]
    ensures id !in m ==> m' == m
    ensures |m'| == if id in m then |m| - 1 else |m|
    ensures KeyedById(m) ==> KeyedById(m')
  {
    if id in m then
      assert m.Keys == (m - {id}).Keys + {id};
      m - {id}
    else m
  }

  /** A save or a delete. */
  datatype StoreOp = Save(client: OAuthClient) | Delete(clientId: string)

  /** Saves and deletes applied in order. */
  function Replay(m: map<string, OAuthClient>, ops: seq<StoreOp>): map<string, OAuthClient>
    decreases |ops|
  {
    if ops == [] then m
    else
      var next := match ops[0]
        case Save(c) => Saved(m, c)
        case Delete(id) => Deleted(m, id);
      Replay(next, ops[1..])
  }

  /** However saves and deletes interleave, every client stays under its own id. */
  lemma {:induction false} ReplayKeyedById(m: map<string, OAuthClient>, ops: seq<StoreOp>)
    requires KeyedById(m)
    ensures KeyedById(Replay(m, ops))
    decreases |ops|
  {
    if ops != [] {
      var next := match ops[0]
        case Save(c) => Saved(m, c)
        case Delete(id) => Deleted(m, id);
      ReplayKeyedById(next, ops[1..]);
    }
  }

  /** After a save of `c` that no later operation on its id overrides, the table still holds `c`. */
  lemma {:induction false} LastSaveWins(m: map<string, OAuthClient>, ops: seq<StoreOp>, i: nat)
    requires i < |ops| && ops[i].Save?
    requires forall j :: i < j < |ops| ==>
      (ops[j].Save? ==> ops[j].client.clientId != ops[i].client.clientId)
      && (ops[j].Delete? ==> ops[j].clientId != ops[i].client.clientId)
    ensures var r := Replay(m, ops); ops[i].client.clientId in r && r[ops[i].client.clientId] == ops[i].client
    decreases |ops|
  {
    var next := match ops[0]
      case Save(c) => Saved(m, c)
      case Delete(id) => Deleted(m, id);
    if i == 0 {
      ReplayUntouched(next, ops[1..], ops[0].client.clientId);
    } else {
      LastSaveWins(next, ops[1..], i - 1);
    }
  }

  /** Operations on other ids leave an id's entry, or its absence, as it was. */
  lemma {:induction false} ReplayUntouched(m: map<string, OAuthClient>, ops: seq<StoreOp>, id: string)
    requires forall j :: 0 <= j < |ops| ==>
      (ops[j].Save? ==> ops[j].client.clientId != id) && (ops[j].Delete? ==> ops[j].clientId != id)
    ensures id in Replay(m, ops) <==> id in m
    ensures id in m ==> Replay(m, ops)[id] == m[id]
    decreases |ops|
  {
    if ops != [] {
      var next := match ops[0]
        case Save(c) => Saved(m, c)
        case Delete(k) => Deleted(m, k);
      ReplayUntouched(next, ops[1..], id);
    }
  }

  /** The dictionary behind the store, with the dictionary operations the store uses. */
  class ClientTable {
    var entries: map<string, OAuthClient>

    constructor ()
      ensures entries == map[]
    {
      entries := map[];
    }

    method Remove(key: string) returns (removed: bool)
      modifies this
      ensures removed <==> key in old(entries)
      ensures entries == old(entries) - {key}
    {
      removed := key in entries;
      entries := entries - {key};
    }

    /** Adding a key that is already present fails (`ok` false) and changes nothing. */
    method Add(key: string, value: OAuthClient) returns (ok: bool)
      modifies this
      ensures ok <==> key !in old(entries)
      ensures ok ==> entries == old(entries)[key := value]
      ensures !ok ==> entries == old(entries)
    {
      if key in entries {
        ok := false;
      } else {
        entries := entries[key := value];
        ok := true;
      }
    }
  }

  class InMemoryOAuthClientStorage {
    /** The one table every instance works on. */
    const storage: ClientTable

    constructor (storage: ClientTable)
      ensures this.storage == storage
    {
      this.storage := storage;
    }

    /** Inserts or replaces; the duplicate-key failure of the dictionary's add cannot occur. */
    method Save(client: OAuthClient)
      modifies storage
      ensures storage.entries == Saved(old(storage.entries), client)
    {
      if client.clientId in storage.entries {
        var _ := storage.Remove(client.clientId);
      }
      var ok := storage.Add(client.clientId, client);
      assert ok;
    }

    method Delete(clientId: string)
      modifies storage
      ensures storage.entries == Deleted(old(storage.entries), clientId)
    {
      if clientId in storage.entries {
        var _ := storage.Remove(clientId);
      }
    }

    /** The client stored under `clientId`, or nothing; reading never changes the table. */
    function Fetch(clientId: string): (r: Option<OAuthClient>)
      reads storage
      ensures r.Some? <==> clientId in storage.entries
      ensures r.Some? ==> r.value == storage.entries[clientId]
    {
      if clientId in storage.entries then Some(storage.entries[clientId]) else None
    }
  }

  /** Two instances share the table: what one saves, the other fetches. */
  method SaveThenFetchElsewhere(a: InMemoryOAuthClientStorage, b: InMemoryOAuthClientStorage, c: OAuthClient)
    returns (r: Option<OAuthClient>)
    requires a.storage == b.storage
    modifies a.storage
    ensures r == Some(c)
  {
    a.Save(c);
    r := b.Fetch(c.clientId);
  }
}
