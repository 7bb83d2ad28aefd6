/** Lease ownership as the control server keeps it (internal/listencontrol/server.go): which processes,
    known by pid and start-time identity, own each lease, and the socket link each was registered with. */
module Owners {
  import opened Bytes

  datatype Owner = Owner(identity: int, target: Option<int>)
  type Book = map<int, map<int, Owner>>

  predicate OwnedBy(book: Book, id: int, pid: int, identity: int) {
    id in book && pid in book[id] && book[id][pid].identity == identity
  }

  function Reserve(book: Book, id: int, pid: int, owner: Owner): Book { book[id := map[pid := owner]] }

  /** handleAdopt on a known lease: a known owner is refreshed, a new one must fit the limit. */
  function Adopt(book: Book, id: int, pid: int, owner: Owner): Book
    requires id in book
  {
    book[id := book[id][pid := owner]]
  }

  /** removeOwner: only the process that registered may go, and the last owner takes the lease with it. */
  function RemoveOwner(book: Book, id: int, pid: int, identity: int): Book {
    if !OwnedBy(book, id, pid, identity) then book
    else if book[id].Keys == {pid} then book - {id}
    else book[id := book[id] - {pid}]
  }

  lemma AdoptOwned(book: Book, id: int, pid: int, owner: Owner)
    requires id in book
    ensures forall i, p, n {:trigger OwnedBy(Adopt(book, id, pid, owner), i, p, n)} ::
              OwnedBy(Adopt(book, id, pid, owner), i, p, n)
              <==> (if i == id && p == pid then n == owner.identity else OwnedBy(book, i, p, n))
  {
  }

  lemma RemoveOwnerOwned(book: Book, id: int, pid: int, identity: int)
    ensures forall i, p, n {:trigger OwnedBy(RemoveOwner(book, id, pid, identity), i, p, n)} ::
              OwnedBy(RemoveOwner(book, id, pid, identity), i, p, n)
              <==> OwnedBy(book, i, p, n) && !(i == id && p == pid && n == identity)
  {
  }
}
