/** Client objects and their identity. PHP clients are mutable objects:
    `setHeader`, `setHeaders`, `addHeaders`, `setBaseUri` and `setConfig` change
    the receiver, while `withHeaders` and (sometimes) `usingJson` return a clone.
    A heap from object ids to client states makes the difference observable. */
module ClientObjects {
  import opened Wrappers
  import opened ContentType
  import opened HyperClient

  type ClientId = nat

  /** Allocated client objects; `next` is the id the next allocation gets. */
  datatype Heap = Heap(clients: map<ClientId, Client>, next: ClientId)

  /** Every allocated id lies below `next`, so `next` is always fresh. */
  predicate Valid(h: Heap) {
    forall id :: id in h.clients ==> id < h.next
  }

  const EmptyHeap: Heap := Heap(map[], 0)

  /** `new Client(...)` or `clone`: a new object holding `c`. */
  function Alloc(h: Heap, c: Client): (res: (Heap, ClientId))
    requires Valid(h)
    ensures Valid(res.0)
    ensures res.1 !in h.clients
    ensures res.0.clients.Keys == h.clients.Keys + {res.1}
    ensures res.0.clients[res.1] == c
    ensures forall id :: id in h.clients ==> res.0.clients[id] == h.clients[id]
  {
    (Heap(h.clients[h.next := c], h.next + 1), h.next)
  }

  /** An in-place mutation of object `id` (the fluent setters return `$this`):
      only that object's state changes, and no object is allocated. */
  function Store(h: Heap, id: ClientId, c: Client): (h': Heap)
    requires Valid(h) && id in h.clients
    ensures Valid(h')
    ensures h'.clients.Keys == h.clients.Keys && h'.next == h.next
    ensures h'.clients[id] == c
    ensures forall other :: other in h.clients && other != id ==> h'.clients[other] == h.clients[other]
  {
    h.(clients := h.clients[id := c])
  }

  /** `$client->setHeader($key, $value)` on object `id`. */
  function SetHeaderOn(h: Heap, id: ClientId, key: string, value: string): (h': Heap)
    requires Valid(h) && id in h.clients
    ensures Valid(h') && h'.clients.Keys == h.clients.Keys
    ensures GetHeader(h'.clients[id], key, None) == Some(value)
    ensures forall k :: k != key ==> GetHeader(h'.clients[id], k, None) == GetHeader(h.clients[id], k, None)
    ensures h'.clients[id].(headers := h.clients[id].headers) == h.clients[id]
    ensures forall other :: other in h.clients && other != id ==> h'.clients[other] == h.clients[other]
  {
    Store(h, id, SetHeader(h.clients[id], key, value))
  }

  /** `$client->addHeaders($headers)` on object `id`. */
  function AddHeadersOn(h: Heap, id: ClientId, headers: HeaderMap): (h': Heap)
    requires Valid(h) && id in h.clients
    ensures Valid(h') && h'.clients.Keys == h.clients.Keys
    ensures forall k :: k in headers ==> GetHeader(h'.clients[id], k, None) == Some(headers[k])
    ensures forall k :: k !in headers ==> GetHeader(h'.clients[id], k, None) == GetHeader(h.clients[id], k, None)
    ensures h'.clients[id].(headers := h.clients[id].headers) == h.clients[id]
    ensures forall other :: other in h.clients && other != id ==> h'.clients[other] == h.clients[other]
  {
    Store(h, id, AddHeaders(h.clients[id], headers))
  }

  /** `$client->withHeaders($headers)`: `(clone $this)->addHeaders($headers)`. The
      result is a new object with the headers merged in; the receiver, and every
      other object, is left as it was. */
  function WithHeaders(h: Heap, id: ClientId, headers: HeaderMap): (res: (Heap, ClientId))
    requires Valid(h) && id in h.clients
    ensures Valid(res.0)
    ensures res.1 !in h.clients
    ensures res.0.clients.Keys == h.clients.Keys + {res.1}
    ensures forall other :: other in h.clients ==> res.0.clients[other] == h.clients[other]
    ensures forall k, d :: k in headers ==> GetHeader(res.0.clients[res.1], k, d) == Some(headers[k])
    ensures forall k, d :: k !in headers ==> GetHeader(res.0.clients[res.1], k, d) == GetHeader(h.clients[id], k, d)
    ensures res.0.clients[res.1].(headers := h.clients[id].headers) == h.clients[id]
  {
    Alloc(h, AddHeaders(h.clients[id], headers))
  }

  /** `$client->usingJson($enabled)`: the receiver itself when its flag is already
      `enabled` (`!==` compares null with a bool as different), otherwise a new
      object that differs only in the flag; the receiver never changes. */
  function UsingJsonOn(h: Heap, id: ClientId, enabled: bool): (res: (Heap, ClientId))
    requires Valid(h) && id in h.clients
    ensures Valid(res.0) && res.1 in res.0.clients
    ensures h.clients[id].applyJsonHeaders == Some(enabled) ==> res == (h, id)
    ensures h.clients[id].applyJsonHeaders != Some(enabled) ==>
      && res.1 !in h.clients
      && res.0.clients.Keys == h.clients.Keys + {res.1}
      && (forall other :: other in h.clients ==> res.0.clients[other] == h.clients[other])
    ensures res.0.clients[res.1] == UsingJson(h.clients[id], enabled)
  {
    if h.clients[id].applyJsonHeaders == Some(enabled) then (h, id)
    else Alloc(h, UsingJson(h.clients[id], enabled))
  }

  /** A client made by `withHeaders` is a separate object: setting a header on it
      afterwards leaves the original untouched. */
  lemma WithHeadersIsolated(h: Heap, id: ClientId, headers: HeaderMap, key: string, value: string)
    requires Valid(h) && id in h.clients
    ensures var (h1, copy) := WithHeaders(h, id, headers);
      var h2 := SetHeaderOn(h1, copy, key, value);
      h2.clients[id] == h.clients[id] && copy != id
  {
  }

  /** When the flag already matches, `usingJson` hands back the same object, so a
      header set through the result is seen through the receiver. */
  lemma UsingJsonAliases(h: Heap, id: ClientId, key: string, value: string)
    requires Valid(h) && id in h.clients
    requires h.clients[id].applyJsonHeaders == Some(true)
    ensures var (h1, same) := UsingJsonOn(h, id, true);
      same == id && GetHeader(SetHeaderOn(h1, same, key, value).clients[id], key, None) == Some(value)
  {
  }

  /** A client whose flag was never set (null) is cloned by `usingJson(false)` as
      well as by `usingJson(true)`. */
  lemma FreshClientAlwaysCloned(h: Heap, id: ClientId, enabled: bool)
    requires Valid(h) && id in h.clients
    requires h.clients[id].applyJsonHeaders.None?
    ensures UsingJsonOn(h, id, enabled).1 != id
  {
  }

  /** The header accessors as the fluent interface uses them: set, read back,
      overwrite. */
  lemma ManipulateHeaders(h: Heap, id: ClientId)
    requires Valid(h) && id in h.clients
    ensures var h1 := SetHeaderOn(h, id, "X-App-Identity", "MyApplication1234");
      var h2 := SetHeaderOn(h1, id, "X-Another-Header", "Another Header");
      var h3 := SetHeaderOn(h2, id, "X-App-Identity", "54321");
      && GetHeader(h2.clients[id], "X-App-Identity", None) == Some("MyApplication1234")
      && GetHeader(h2.clients[id], "X-Another-Header", None) == Some("Another Header")
      && GetHeader(h3.clients[id], "X-App-Identity", None) == Some("54321")
      && GetHeader(h3.clients[id], "X-Another-Header", None) == Some("Another Header")
  {
    var h1 := SetHeaderOn(h, id, "X-App-Identity", "MyApplication1234");
    var h2 := SetHeaderOn(h1, id, "X-Another-Header", "Another Header");
    assert "X-App-Identity" != "X-Another-Header" by {
      assert "X-App-Identity"[3] != "X-Another-Header"[3];
    }
  }
}
