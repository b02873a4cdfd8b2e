/** The request ledger: for each customer, the list (under the Redis key
    `<socketId>reqs`) of agents already asked on that customer's behalf, and
    the choice `sendRequest` makes against it. */
module Ledger {
  import opened Presence

  /** No element of `s` occurs twice. */
  predicate NoDup(s: seq<string>) {
    forall i, j :: 0 <= i < j < |s| ==> s[i] != s[j]
  }

  /** The position, in presence order, of the first agent id not yet in the
      ledger `sent`; `|ids|` when every agent has already been asked. */
  function FirstUntried(ids: seq<string>, sent: seq<string>): (k: nat)
    ensures k <= |ids|
    ensures forall j :: 0 <= j < k ==> ids[j] in sent
    ensures k < |ids| ==> ids[k] !in sent
  {
    if ids == [] || ids[0] !in sent then 0 else 1 + FirstUntried(ids[1..], sent)
  }

  /** The ledger after one request as `sendRequest` is evidently meant to
      work over the agent ids `ids`: the first untried agent pushed on the
      front (LPUSH), or `sent` unchanged when every agent has been asked. */
  function Recorded(ids: seq<string>, sent: seq<string>): (r: seq<string>)
    ensures NoDup(sent) ==> NoDup(r)
    ensures r == sent || (|r| == |sent| + 1 && r[1..] == sent && r[0] in ids && r[0] !in sent)
    ensures r != sent <==> exists a :: a in ids && a !in sent
  {
    var k := FirstUntried(ids, sent);
    if k < |ids| then [ids[k]] + sent else sent
  }

  /** How many already-asked agents one `sendRequest` can skip: each skip
      sends an HTTP response, the second of which throws once the first has
      gone out, and the handler's `catch` then ends the request. */
  const SKIPS_BEFORE_THROW: nat := 2

  /** The ledger after one `sendRequest` as the handler runs: the first
      untried agent is pushed only if at most one already-asked agent comes
      before it. */
  function RecordedAsWritten(ids: seq<string>, sent: seq<string>): (r: seq<string>)
    ensures NoDup(sent) ==> NoDup(r)
    ensures r == sent || r == Recorded(ids, sent)
    ensures r != sent <==> exists j :: 0 <= j < |ids| && j < SKIPS_BEFORE_THROW && ids[j] !in sent
  {
    var k := FirstUntried(ids, sent);
    if k < |ids| && k < SKIPS_BEFORE_THROW then [ids[k]] + sent else sent
  }

  /** The ledger after `m` requests against an unchanging agent list: the
      first `m` agents, most recently asked first. */
  function Tried(ids: seq<string>, m: nat): seq<string>
    requires m <= |ids|
  {
    if m == 0 then [] else [ids[m - 1]] + Tried(ids, m - 1)
  }

  /** Unique records give unique agent ids. */
  lemma DistinctSocketIds(users: seq<User>)
    requires DistinctIds(users)
    ensures NoDup(SocketIds(users))
  {
  }

  /** The agents in `Tried(ids, m)` are exactly the first `m`. */
  lemma {:induction false} TriedMembers(ids: seq<string>, m: nat)
    requires m <= |ids|
    ensures forall a :: a in Tried(ids, m) <==> a in ids[..m]
  {
    if m > 0 {
      TriedMembers(ids, m - 1);
      assert ids[..m] == ids[..m - 1] + [ids[m - 1]];
    }
  }

  /** Under the intended `Recorded`, repeated requests for one customer walk
      the agents in presence order, one new agent per call, and record nothing
      once all have been asked. */
  lemma {:induction false} SuccessiveRequests(ids: seq<string>, m: nat)
    requires NoDup(ids) && m <= |ids|
    ensures Recorded(ids, Tried(ids, m)) == if m < |ids| then Tried(ids, m + 1) else Tried(ids, m)
  {
    var sent := Tried(ids, m);
    TriedMembers(ids, m);
    assert forall j :: 0 <= j < m ==> ids[..m][j] == ids[j];
    assert forall j :: 0 <= j < m ==> ids[j] in sent;
    if m < |ids| {
      assert forall j :: 0 <= j < m ==> ids[..m][j] != ids[m];
      assert ids[m] !in sent;
      assert FirstUntried(ids, sent) == m;
    }
  }

  /** Repeated requests as the handler runs them: the first two agents are
      asked in presence order, and after that nothing more is recorded. */
  lemma {:induction false} SuccessiveRequestsAsWritten(ids: seq<string>, m: nat)
    requires NoDup(ids) && m <= |ids|
    ensures RecordedAsWritten(ids, Tried(ids, m)) ==
            if m < |ids| && m < SKIPS_BEFORE_THROW then Tried(ids, m + 1) else Tried(ids, m)
  {
    SuccessiveRequests(ids, m);
  }

  /** With three or more agents, the third is never asked: after the first two
      requests the handler records nothing, where the intended walk records
      the third agent. */
  lemma StallAtThirdAgent(ids: seq<string>)
    requires NoDup(ids) && |ids| >= 3
    ensures RecordedAsWritten(ids, Tried(ids, 2)) == Tried(ids, 2)
    ensures Recorded(ids, Tried(ids, 2)) == Tried(ids, 3) != Tried(ids, 2)
  {
    SuccessiveRequestsAsWritten(ids, 2);
    SuccessiveRequests(ids, 2);
  }
}
