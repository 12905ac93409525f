/**
 * Recovery leases: the durable fence that lets a slow recovery worker lose without doing harm
 * (sitescore-commerce recovery.py claim_batch and finish_claim, recovery_atomic.py).
 *
 * Clock readings are arbitrary. The only assumption is that a claim's token is new.
 */
module Lease {
  import opened Prelude

  type Token = int

  /** The lease columns of one `recovery_state` row; the table requires both or neither. */
  datatype Lease = Lease(token: Option<Token>, expiresAt: Option<int>)

  /** The row together with the history of its successful claims, fenced writes and finishes. */
  datatype Fence = Fence(lease: Lease, log: seq<Entry>)

  datatype Entry = Claimed(token: Token) | Wrote(token: Token) | Finished(token: Token)

  const FREE := Lease(None, None)

  predicate Current(l: Lease, token: Token, now: int) {
    l.token == Some(token) && l.expiresAt.Some? && l.expiresAt.value > now
  }

  predicate Claimable(l: Lease, now: int) {
    l.token.None? || (l.expiresAt.Some? && l.expiresAt.value <= now)
  }

  function Claim(f: Fence, token: Token, now: int, seconds: int): Fence {
    if Claimable(f.lease, now) then
      Fence(Lease(Some(token), Some(now + seconds)), f.log + [Claimed(token)])
    else f
  }

  function Write(f: Fence, token: Token): Fence {
    f.(log := f.log + [Wrote(token)])
  }

  function Finish(f: Fence, token: Token, now: int): Fence {
    if Current(f.lease, token, now) then Fence(FREE, f.log + [Finished(token)]) else f
  }

  /** Every write and finish directly continues a block of its own token; no token is claimed twice. */
  predicate Fenced(f: Fence) {
    && (f.lease.token.Some? <==> f.lease.expiresAt.Some?)
    && (forall i :: 0 <= i < |f.log| && !f.log[i].Claimed? ==>
          i > 0 && !f.log[i - 1].Finished? && f.log[i - 1].token == f.log[i].token)
    && (forall i, j :: 0 <= i < j < |f.log| && f.log[i].Claimed? && f.log[j].Claimed? ==> f.log[i] != f.log[j])
    && (f.lease.token.Some? ==>
          f.log != [] && !f.log[|f.log| - 1].Finished? && f.log[|f.log| - 1].token == f.lease.token.value)
  }

  predicate Issued(f: Fence, tokens: set<Token>) {
    forall i :: 0 <= i < |f.log| ==> f.log[i].token in tokens
  }

  lemma ClaimKeepsFenced(f: Fence, token: Token, now: int, seconds: int, tokens: set<Token>)
    requires Fenced(f) && Issued(f, tokens) && token !in tokens
    ensures Fenced(Claim(f, token, now, seconds)) && Issued(Claim(f, token, now, seconds), tokens + {token})
  {
  }

  lemma WriteKeepsFenced(f: Fence, token: Token, now: int, tokens: set<Token>)
    requires Fenced(f) && Issued(f, tokens) && Current(f.lease, token, now)
    ensures Fenced(Write(f, token)) && Issued(Write(f, token), tokens)
  {
  }

  lemma FinishKeepsFenced(f: Fence, token: Token, now: int, tokens: set<Token>)
    requires Fenced(f) && Issued(f, tokens)
    ensures Fenced(Finish(f, token, now)) && Issued(Finish(f, token, now), tokens)
  {
  }

  /**
   * The history is a sequence of blocks, one per claim and in claim order: whatever a token wrote or
   * finished lies between its claim and the next entry of anyone else, with nothing in between.
   */
  lemma {:induction false} FencedHistoryIsBlocks(f: Fence, k: nat) returns (i: nat)
    requires Fenced(f) && k < |f.log|
    ensures i <= k && f.log[i] == Claimed(f.log[k].token)
    ensures forall j :: i < j < k ==> f.log[j] == Wrote(f.log[k].token)
    ensures forall j :: 0 <= j < |f.log| && f.log[j] == f.log[i] ==> j == i
    ensures forall j :: 0 <= j < i ==> f.log[j].token != f.log[k].token
    decreases k
  {
    if f.log[k].Claimed? {
      i := k;
      forall j | 0 <= j < i ensures f.log[j].token != f.log[k].token {
        if f.log[j].token == f.log[k].token {
          var _ := FencedHistoryIsBlocks(f, j);
        }
      }
    } else {
      i := FencedHistoryIsBlocks(f, k - 1);
    }
  }

  /** A finish closes its block for good: no later entry carries the token. */
  lemma FinishIsFinal(f: Fence, k: nat, m: nat)
    requires Fenced(f) && k < m < |f.log| && f.log[k].Finished?
    ensures f.log[m].token != f.log[k].token
  {
    if f.log[m].token == f.log[k].token {
      var _ := FencedHistoryIsBlocks(f, m);
      var _ := FencedHistoryIsBlocks(f, k);
    }
  }

  /** The lease columns of a `recovery_state` row, claimed and released in place. */
  class LeaseRow {
    var token: Option<Token>
    var expiresAt: Option<int>
    var attempts: nat
    var failures: nat
    var nextAttemptAt: int
    ghost var log: seq<Entry>

    ghost function View(): Fence
      reads this
    {
      Fence(Lease(token, expiresAt), log)
    }

    constructor (now: int)
      ensures View() == Fence(FREE, []) && attempts == failures == 0 && nextAttemptAt == now
    {
      token, expiresAt, attempts, failures, nextAttemptAt, log := None, None, 0, 0, now, [];
    }

    /** One row of `claim_batch`, already selected as due. */
    method ClaimDue(issued: Token, now: int, seconds: int) returns (previousFailures: nat)
      requires Claimable(Lease(token, expiresAt), now)
      modifies this
      ensures View() == Claim(old(View()), issued, now, seconds)
      ensures attempts == old(attempts) + 1 && previousFailures == failures == old(failures)
      ensures nextAttemptAt == old(nextAttemptAt)
    {
      previousFailures := failures;
      token := Some(issued);
      expiresAt := Some(now + seconds);
      attempts := attempts + 1;
      log := log + [Claimed(issued)];
    }

    method FinishClaim(mine: Token, now: int, failed: bool, delay: int) returns (finished: bool)
      modifies this
      ensures View() == Finish(old(View()), mine, now)
      ensures finished <==> Current(old(View()).lease, mine, now)
      ensures attempts == old(attempts)
      ensures finished ==> failures == (if failed then old(failures) + 1 else 0) && nextAttemptAt == now + delay
      ensures !finished ==> failures == old(failures) && nextAttemptAt == old(nextAttemptAt)
    {
      if token != Some(mine) || expiresAt.None? || expiresAt.value <= now {
        return false;
      }
      failures := if failed then failures + 1 else 0;
      nextAttemptAt := now + delay;
      token := None;
      expiresAt := None;
      log := log + [Finished(mine)];
      return true;
    }
  }
}
