/** Presence lists: the user records kept under the store keys 'agent' and
    'customer', and the pure list operations the handlers apply to them. */
module Presence {

  /** A user record as posted to /join. `kind` is the record's `type` field,
      which is also the store key the record is filed under; `socketId` names
      the live connection; every other body field is kept in `attrs`. */
  datatype User = User(kind: string, socketId: string, attrs: map<string, string>)

  const AGENT_KEY: string := "agent"
  const CUSTOMER_KEY: string := "customer"

  /** Some record in `users` carries the connection `id`. */
  predicate HasSocket(users: seq<User>, id: string) {
    exists u :: u in users && u.socketId == id
  }

  /** No two records of `users` share a connection id. */
  predicate DistinctIds(users: seq<User>) {
    forall i, j :: 0 <= i < j < |users| ==> users[i].socketId != users[j].socketId
  }

  /** `a` can be obtained from `b` by deleting elements: either the last
      element of `b` is matched by the last of `a`, or it is skipped. */
  predicate Subsequence<T(==)>(a: seq<T>, b: seq<T>)
    decreases |b|
  {
    a == [] ||
    (b != [] &&
     ((a[|a| - 1] == b[|b| - 1] && Subsequence(a[..|a| - 1], b[..|b| - 1])) ||
      Subsequence(a, b[..|b| - 1])))
  }

  /** The elements of `s` that `keep` accepts, in their original order
      (JavaScript's Array.prototype.filter). */
  function Filter(s: seq<User>, keep: User -> bool): (r: seq<User>)
    ensures |r| <= |s|
    ensures forall x :: x in r <==> x in s && keep(x)
  {
    if s == [] then []
    else Filter(s[..|s| - 1], keep) + (if keep(s[|s| - 1]) then [s[|s| - 1]] else [])
  }

  /** The test of `clearOffline`: the record's connection is open. */
  function IsLive(live: set<string>): User -> bool {
    (u: User) => u.socketId in live
  }

  /** The test of the `disconnect` handler: the record is not the
      disconnecting connection's. */
  function IsNot(id: string): User -> bool {
    (u: User) => u.socketId != id
  }

  /** The connection ids of `users`, in presence order (`extractSockets`). */
  function SocketIds(users: seq<User>): (ids: seq<string>)
    ensures |ids| == |users|
    ensures forall i :: 0 <= i < |users| ==> ids[i] == users[i].socketId
  {
    if users == [] then [] else [users[0].socketId] + SocketIds(users[1..])
  }

  /** Filtering keeps the surviving entries in their original relative order. */
  lemma {:induction false} FilterKeepsOrder(s: seq<User>, keep: User -> bool)
    ensures Subsequence(Filter(s, keep), s)
  {
    if s != [] {
      var p, x := s[..|s| - 1], s[|s| - 1];
      FilterKeepsOrder(p, keep);
      var r := Filter(s, keep);
      if keep(x) {
        assert r == Filter(p, keep) + [x];
        assert r[..|r| - 1] == Filter(p, keep);
      } else {
        assert r == Filter(p, keep);
      }
    }
  }

  /** An entry that every element passes leaves the list as it was: for
      instance the disconnect of a socket no record carries. */
  lemma {:induction false} FilterKeepsAll(s: seq<User>, keep: User -> bool)
    requires forall i :: 0 <= i < |s| ==> keep(s[i])
    ensures Filter(s, keep) == s
  {
    if s != [] {
      var p := s[..|s| - 1];
      assert forall i :: 0 <= i < |p| ==> p[i] == s[i];
      FilterKeepsAll(p, keep);
      assert keep(s[|s| - 1]);
      assert p + [s[|s| - 1]] == s;
    }
  }

  /** Filtering a list with unique connection ids keeps them unique. */
  lemma {:induction false} FilterKeepsDistinct(users: seq<User>, keep: User -> bool)
    requires DistinctIds(users)
    ensures DistinctIds(Filter(users, keep))
  {
    if users != [] {
      var p, x := users[..|users| - 1], users[|users| - 1];
      assert DistinctIds(p) by {
        forall i, j | 0 <= i < j < |p| ensures p[i].socketId != p[j].socketId {
          assert p[i] == users[i] && p[j] == users[j];
        }
      }
      FilterKeepsDistinct(p, keep);
      if keep(x) {
        var f := Filter(p, keep);
        forall u | u in f ensures u.socketId != x.socketId {
          var i :| 0 <= i < |p| && p[i] == u;
          assert users[i] == u;
        }
        forall i, j | 0 <= i < j < |f + [x]| ensures (f + [x])[i].socketId != (f + [x])[j].socketId {
          if j == |f| {
            assert (f + [x])[i] == f[i] && f[i] in f;
          } else {
            assert (f + [x])[i] == f[i] && (f + [x])[j] == f[j];
          }
        }
      }
    }
  }

  /** Appending a record whose connection is not yet listed keeps the
      connection ids unique (the `addUser` push). */
  lemma AppendKeepsDistinct(users: seq<User>, u: User)
    requires DistinctIds(users) && !HasSocket(users, u.socketId)
    ensures DistinctIds(users + [u])
  {
    forall i, j | 0 <= i < j < |users + [u]|
      ensures (users + [u])[i].socketId != (users + [u])[j].socketId
    {
      assert (users + [u])[i] == users[i] && users[i] in users;
    }
  }
}
