/**
 * Replay safety over a whole history of inbound calls. Each call runs as one
 * host transaction: a success commits the handler's ledger, a failure
 * discards everything, so the next call sees the ledger as it was.
 *
 * By the contract of `Handle`, a call succeeds exactly when `Accepts` holds
 * and then leaves `Effects`; the history is stated in those terms, and
 * `StepCommitsHandle` connects it back to `Handle`.
 */
module ReplaySafety {
  import opened Wrappers
  import opened Ints
  import opened Addresses
  import opened Ledgers
  import opened HandleIncoming
  import opened HandleIncomingProperties

  /** One submitted `handle_incoming` instruction. */
  datatype Call = Call(accounts: Accounts, payload: seq<byte>)

  /** The message key (token id, nonce) of a call whose payload decodes. */
  function KeyOf(env: Env, c: Call): Option<(TokenId, u64)> {
    match env.decodePayload(c.payload)
    case Some(p) => Some((p.tokenId, p.nonce))
    case None => None
  }

  /**
   * One transaction: the ledger after the call. A rejected call leaves the
   * ledger exactly as it was, and no call alters an account that existed.
   */
  function Step(env: Env, l: Ledger, c: Call): (l': Ledger)
    ensures !Accepts(env, l, c.accounts, c.payload) ==> l' == l
    ensures l.accounts.Keys <= l'.accounts.Keys
    ensures forall a :: a in l.accounts ==> l'.accounts[a] == l.accounts[a]
  {
    if Accepts(env, l, c.accounts, c.payload) then Effects(env, l, c.accounts, env.decodePayload(c.payload).value)
    else l
  }

  /** `Step` is the host's commit of `Handle`: the new ledger on success, the old one on failure. */
  lemma StepCommitsHandle(env: Env, l: Ledger, c: Call)
    ensures Step(env, l, c) == match Handle(env, l, c.accounts, c.payload)
                               case Success(next) => next
                               case Failure(_) => l
  {
  }

  /**
   * A rejected call consumes nothing: in particular it leaves no marker, so
   * a later call with the same key sees the ledger as if it had not happened.
   */
  lemma RejectedCallConsumesNothing(env: Env, l: Ledger, rejected: Call, later: Call)
    requires Handle(env, l, rejected.accounts, rejected.payload).Failure?
    ensures Handle(env, Step(env, l, rejected), later.accounts, later.payload) == Handle(env, l, later.accounts, later.payload)
  {
  }

  /** The ledger after the calls, applied in order, one transaction each. */
  function Run(env: Env, l: Ledger, calls: seq<Call>): Ledger
    decreases |calls|
  {
    if |calls| == 0 then l
    else Step(env, Run(env, l, calls[..|calls| - 1]), calls[|calls| - 1])
  }

  /** Call `i` of the history succeeded on the ledger its predecessors left. */
  predicate Applied(env: Env, l: Ledger, calls: seq<Call>, i: nat)
    requires i < |calls|
  {
    Accepts(env, Run(env, l, calls[..i]), calls[i].accounts, calls[i].payload)
  }

  /** Call `i` of the history was applied and carried key (t, n). */
  predicate AppliedWithKey(env: Env, l: Ledger, calls: seq<Call>, i: nat, t: TokenId, n: u64)
    requires i < |calls|
  {
    Applied(env, l, calls, i) && KeyOf(env, calls[i]) == Some((t, n))
  }

  /** Accounts that exist at some point of a history stay, unchanged, for the rest of it. */
  lemma {:induction false} RunKeepsAccounts(env: Env, l: Ledger, calls: seq<Call>, i: nat, j: nat)
    requires i <= j <= |calls|
    ensures Run(env, l, calls[..i]).accounts.Keys <= Run(env, l, calls[..j]).accounts.Keys
    ensures forall a :: a in Run(env, l, calls[..i]).accounts ==>
      Run(env, l, calls[..j]).accounts[a] == Run(env, l, calls[..i]).accounts[a]
    decreases j
  {
    if i < j {
      RunKeepsAccounts(env, l, calls, i, j - 1);
      assert calls[..j][..j - 1] == calls[..j - 1];
    }
  }

  /** One transaction adds the marker for (t, n) exactly when it applies a call with that key. */
  lemma StepAddsMarkerOfItsKey(env: Env, l: Ledger, c: Call, t: TokenId, n: u64)
    ensures ReplayMarkerAddress(t, n) in Step(env, l, c).accounts <==>
      || ReplayMarkerAddress(t, n) in l.accounts
      || (Accepts(env, l, c.accounts, c.payload) && KeyOf(env, c) == Some((t, n)))
  {
    if Accepts(env, l, c.accounts, c.payload) {
      var p := env.decodePayload(c.payload).value;
      ReplayMarkerAddressInjective(t, n, p.tokenId, p.nonce);
    }
  }

  /** Call `i` leaves the marker record of its key in the ledger after it. */
  lemma AppliedCallMarks(env: Env, l: Ledger, calls: seq<Call>, i: nat, t: TokenId, n: u64)
    requires i < |calls| && AppliedWithKey(env, l, calls, i, t, n)
    ensures ReplayMarkerAddress(t, n) in Run(env, l, calls[..i + 1]).accounts
    ensures Run(env, l, calls[..i + 1]).accounts[ReplayMarkerAddress(t, n)].MarkerAccount?
  {
    assert calls[..i + 1][..i] == calls[..i];
    StepAddsMarkerOfItsKey(env, Run(env, l, calls[..i]), calls[i], t, n);
  }

  /**
   * Replay safety: in any history, once a call with key (token id, nonce)
   * has been applied, every later call with the same key fails.
   */
  lemma {:induction false} LaterSameKeyFails(env: Env, l: Ledger, calls: seq<Call>, i: nat, j: nat)
    requires i < j < |calls|
    requires Applied(env, l, calls, i)
    requires KeyOf(env, calls[j]) == KeyOf(env, calls[i])
    ensures !Applied(env, l, calls, j)
  {
    var p := env.decodePayload(calls[i].payload).value;
    AppliedCallMarks(env, l, calls, i, p.tokenId, p.nonce);
    RunKeepsAccounts(env, l, calls, i + 1, j);
  }

  /**
   * The error a replay meets: a later call with an applied call's key, whose
   * account, config and marker-address guards pass on the ledger the history
   * left, is refused with `ReplayAttack`.
   */
  lemma {:induction false} LaterSameKeyIsReplayAttack(env: Env, l: Ledger, calls: seq<Call>, i: nat, j: nat, p: Payload)
    requires i < j < |calls|
    requires Applied(env, l, calls, i)
    requires KeyOf(env, calls[i]) == Some((p.tokenId, p.nonce))
    requires env.decodePayload(calls[j].payload) == Some(p)
    requires AccountsValid(Run(env, l, calls[..j]), calls[j].accounts)
    requires ConfigValid(env, Run(env, l, calls[..j]), calls[j].accounts)
    requires calls[j].accounts.replayMarker == ReplayMarkerAddress(p.tokenId, p.nonce)
    ensures Handle(env, Run(env, l, calls[..j]), calls[j].accounts, calls[j].payload) == Failure(Program(ReplayAttack))
  {
    var at := ReplayMarkerAddress(p.tokenId, p.nonce);
    AppliedCallMarks(env, l, calls, i, p.tokenId, p.nonce);
    RunKeepsAccounts(env, l, calls, i + 1, j);
    assert HoldsData(env.layout, Run(env, l, calls[..j]), at);
    ReplayMarkerOccupiedRejected(env, Run(env, l, calls[..j]), calls[j].accounts, calls[j].payload, p);
  }

  /** Whether call `i` is applied, and with which key, does not depend on the calls after it. */
  lemma AppliedInPrefix(env: Env, l: Ledger, calls: seq<Call>, k: nat, i: nat, t: TokenId, n: u64)
    requires i < k <= |calls|
    ensures AppliedWithKey(env, l, calls[..k], i, t, n) == AppliedWithKey(env, l, calls, i, t, n)
  {
    assert calls[..k][..i] == calls[..i];
  }

  /** A marker present after a history was there before it or was left by an applied call with its key. */
  lemma {:induction false} MarkerComesFromAppliedCall(env: Env, l: Ledger, calls: seq<Call>, t: TokenId, n: u64)
      returns (i: nat)
    requires ReplayMarkerAddress(t, n) in Run(env, l, calls).accounts
    requires ReplayMarkerAddress(t, n) !in l.accounts
    ensures i < |calls| && AppliedWithKey(env, l, calls, i, t, n)
    decreases |calls|
  {
    var k := |calls| - 1;
    StepAddsMarkerOfItsKey(env, Run(env, l, calls[..k]), calls[k], t, n);
    if AppliedWithKey(env, l, calls, k, t, n) {
      i := k;
    } else {
      i := MarkerComesFromAppliedCall(env, l, calls[..k], t, n);
      AppliedInPrefix(env, l, calls, k, i, t, n);
    }
  }

  /**
   * The replay markers of a history are exactly its applied messages: a
   * marker exists for (token id, nonce) after the history if and only if it
   * existed before, or some applied call carried that key.
   */
  lemma MarkerIffApplied(env: Env, l: Ledger, calls: seq<Call>, t: TokenId, n: u64)
    ensures ReplayMarkerAddress(t, n) in Run(env, l, calls).accounts <==>
      || ReplayMarkerAddress(t, n) in l.accounts
      || exists i :: 0 <= i < |calls| && AppliedWithKey(env, l, calls, i, t, n)
  {
    var at := ReplayMarkerAddress(t, n);
    if at in Run(env, l, calls).accounts && at !in l.accounts {
      var i := MarkerComesFromAppliedCall(env, l, calls, t, n);
    }
    assert calls[..0] == [] && calls[..|calls|] == calls;
    if at in l.accounts {
      RunKeepsAccounts(env, l, calls, 0, |calls|);
    }
    forall i | 0 <= i < |calls| && AppliedWithKey(env, l, calls, i, t, n)
      ensures at in Run(env, l, calls).accounts
    {
      AppliedCallMarks(env, l, calls, i, t, n);
      RunKeepsAccounts(env, l, calls, i + 1, |calls|);
    }
  }
}
