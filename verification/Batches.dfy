/** How many undisturbed batches clear the outbox, from any state of the pipeline and whatever other relays hold. */
module Batches {
  import opened Sums
  import opened Pipeline
  import opened Drain
  import Relay

  /** A batch takes as many rows as it may and as there are unlocked unpublished ones. */
  lemma BatchTakes(s: State, limit: nat, rows: seq<nat>)
    requires IsBatch(s, limit, rows)
    ensures |rows| == if |AvailableRows(s)| < limit then |AvailableRows(s)| else limit
    ensures Members(rows) <= AvailableRows(s) && |Members(rows)| == |rows|
  {
    var taken := Members(rows);
    DistinctCard(rows);
    forall x | x in taken ensures x in AvailableRows(s) {
      var i :| 0 <= i < |rows| && rows[i] == x;
      assert Available(s, rows[i]);
    }
    SubsetCard(taken, AvailableRows(s));
    if |rows| < limit {
      forall y | y in AvailableRows(s) ensures y in taken {
        assert Available(s, y);
      }
      assert taken == AvailableRows(s);
    }
  }

  /** What it has committed is no longer there to take; nothing else changes hands. */
  lemma BatchLeaves(s: State, limit: nat, rows: seq<nat>)
    requires IsBatch(s, limit, rows)
    requires forall i | 0 <= i < |rows| :: rows[i] in s.shop.outbox
    ensures |AvailableRows(Relay.AfterBatch(s, rows))| == |AvailableRows(s)| - |rows|
  {
    var s', taken := Relay.AfterBatch(s, rows), Members(rows);
    BatchTakes(s, limit, rows);
    forall x | x in s.shop.outbox ensures Available(s', x) <==> Available(s, x) && x !in rows {
      assert Locked(s', x) == Locked(s, x);
    }
    assert AvailableRows(s') == AvailableRows(s) - taken;
    assert |AvailableRows(s) - taken| == |AvailableRows(s)| - |taken|;
  }

  lemma BatchGrows(s: State, limit: nat, rows: seq<nat>, first: nat)
    requires IsBatch(s, limit, rows) && Available(s, first) && first !in rows
    requires forall y | y in s.shop.outbox && Available(s, y) && y !in rows &&
             y != first :: Before(s.shop.outbox, first, y)
    ensures IsBatch(s, limit + 1, rows + [first])
  {
    var more := rows + [first];
    assert |rows| == limit;
    forall y | y in s.shop.outbox && Available(s, y) && y !in more
      ensures |more| == limit + 1 && forall i | 0 <= i < |more| :: Before(s.shop.outbox, more[i], y)
    {
      assert y !in rows;
      assert first in more;
    }
  }

  /** There always is a batch to claim. */
  lemma {:induction false} SomeBatch(s: State, limit: nat) returns (rows: seq<nat>)
    ensures IsBatch(s, limit, rows)
    decreases limit
  {
    if limit == 0 {
      rows := [];
    } else {
      rows := SomeBatch(s, limit - 1);
      var rest := AvailableRows(s) - Members(rows);
      if rest != {} {
        var first := FirstRow(s.shop.outbox, rest);
        forall y | y in s.shop.outbox && Available(s, y) && y !in rows ensures y in rest {
          assert y in AvailableRows(s);
        }
        assert first in AvailableRows(s) && first !in rows;
        BatchGrows(s, limit - 1, rows, first);
        rows := rows + [first];
      } else {
        forall y | y in s.shop.outbox && Available(s, y) ensures y in rows {
          assert y in AvailableRows(s) && y !in rest;
        }
      }
    }
  }

  /** states[0], states[1], ... with one undisturbed batch between each and the next. */
  ghost predicate BatchAfterBatch(states: seq<State>, limit: nat) {
    && |states| > 0 && states[0].declared
    && forall i, j {:trigger NextBatch(states[i], limit, states[j])} | 0 <= i < j < |states| && j == i + 1 ::
         NextBatch(states[i], limit, states[j])
  }

  ghost predicate NextBatch(s: State, limit: nat, s': State) {
    exists rows :: IsBatch(s, limit, rows) && (forall i | 0 <= i < |rows| :: rows[i] in s.shop.outbox) &&
                   s' == Relay.AfterBatch(s, rows)
  }

  lemma AnotherBatch(s: State, limit: nat) returns (s': State)
    ensures NextBatch(s, limit, s')
  {
    var rows := SomeBatch(s, limit);
    Relay.BatchRowsExist(s, limit, rows);
    s' := Relay.AfterBatch(s, rows);
  }

  /** From any state with the exchange declared, any number of undisturbed batches can follow one another. */
  lemma {:induction false} BatchesCanFollow(s: State, limit: nat, n: nat) returns (states: seq<State>)
    requires s.declared
    ensures |states| == n + 1 && states[0] == s && BatchAfterBatch(states, limit)
    decreases n
  {
    if n == 0 {
      states := [s];
    } else {
      var before := BatchesCanFollow(s, limit, n - 1);
      var next := AnotherBatch(before[n - 1], limit);
      states := before + [next];
      forall i, j | 0 <= i < j < |states| && j == i + 1 ensures NextBatch(states[i], limit, states[j]) {
        if j < n {
          assert NextBatch(before[i], limit, before[j]);
        }
      }
    }
  }

  lemma NextBatchLeaves(s: State, limit: nat, s': State)
    requires NextBatch(s, limit, s')
    ensures var left := |AvailableRows(s)|; |AvailableRows(s')| == left - if left < limit then left else limit
    ensures s'.declared == s.declared
  {
    var rows :| IsBatch(s, limit, rows) && (forall i | 0 <= i < |rows| :: rows[i] in s.shop.outbox) &&
                s' == Relay.AfterBatch(s, rows);
    BatchTakes(s, limit, rows);
    BatchLeaves(s, limit, rows);
  }

  lemma NextBatchIsARun(s: State, limit: nat, s': State) returns (acts: seq<Action>)
    requires s.declared && NextBatch(s, limit, s')
    ensures Valid(s, acts) && Run(s, acts) == s'
  {
    var rows :| IsBatch(s, limit, rows) && (forall i | 0 <= i < |rows| :: rows[i] in s.shop.outbox) &&
                s' == Relay.AfterBatch(s, rows);
    var r := FreshKey(s.relays.Keys);
    assert r !in s.relays;
    acts := Relay.BatchRun(s, r, limit, rows);
  }

  function Remaining(u: nat, limit: nat, k: nat): nat {
    if u <= k * limit then 0 else u - k * limit
  }

  lemma OneMoreBatch(u: nat, limit: nat, k: nat)
    requires k > 0
    ensures var left := Remaining(u, limit, k - 1);
            Remaining(u, limit, k) == left - if left < limit then left else limit
  {
    assert k * limit == (k - 1) * limit + limit;
  }

  lemma {:induction false} AvailableAfter(states: seq<State>, limit: nat, k: nat)
    requires BatchAfterBatch(states, limit) && k < |states|
    ensures |AvailableRows(states[k])| == Remaining(|AvailableRows(states[0])|, limit, k)
    decreases k
  {
    if k > 0 {
      AvailableAfter(states, limit, k - 1);
      assert NextBatch(states[k - 1], limit, states[k]);
      NextBatchLeaves(states[k - 1], limit, states[k]);
      OneMoreBatch(|AvailableRows(states[0])|, limit, k);
    }
  }

  lemma CeilingIsLeast(u: nat, limit: nat, k: nat)
    requires limit > 0
    ensures (u + limit - 1) / limit <= k <==> u <= k * limit
  {
    var q := (u + limit - 1) / limit;
    assert q * limit <= u + limit - 1 < q * limit + limit;
    if q <= k {
      assert q * limit <= k * limit;
    } else {
      assert (k + 1) * limit <= q * limit;
    }
  }

  /** ceil(U / batchSize) batches clear U unlocked unpublished rows, and no fewer do. */
  lemma BatchesToClear(states: seq<State>, limit: nat, k: nat)
    requires BatchAfterBatch(states, limit) && k < |states| && limit > 0
    ensures var u := |AvailableRows(states[0])|;
            AvailableRows(states[k]) == {} <==> (u + limit - 1) / limit <= k
  {
    AvailableAfter(states, limit, k);
    CeilingIsLeast(|AvailableRows(states[0])|, limit, k);
  }

  lemma {:induction false} RunConcat(s: State, first: seq<Action>, second: seq<Action>)
    requires Valid(s, first) && Valid(Run(s, first), second)
    ensures Valid(s, first + second) && Run(s, first + second) == Run(Run(s, first), second)
    decreases |first|
  {
    if first == [] {
      assert first + second == second;
    } else {
      RunConcat(Apply(s, first[0]), first[1..], second);
      assert (first + second)[1..] == first[1..] + second;
    }
  }

  lemma StaysDeclared(states: seq<State>, limit: nat, k: nat)
    requires BatchAfterBatch(states, limit) && k < |states|
    ensures states[k].declared
    decreases k
  {
    if k > 0 {
      StaysDeclared(states, limit, k - 1);
      assert NextBatch(states[k - 1], limit, states[k]);
      NextBatchLeaves(states[k - 1], limit, states[k]);
    }
  }

  /** Batch after batch is a run of the pipeline. */
  lemma {:induction false} BatchesAreARun(states: seq<State>, limit: nat, k: nat) returns (acts: seq<Action>)
    requires BatchAfterBatch(states, limit) && k < |states|
    ensures Valid(states[0], acts) && Run(states[0], acts) == states[k]
    decreases k
  {
    if k == 0 {
      acts := [];
    } else {
      acts := BatchesAreARun(states, limit, k - 1);
      StaysDeclared(states, limit, k - 1);
      assert NextBatch(states[k - 1], limit, states[k]);
      var more := NextBatchIsARun(states[k - 1], limit, states[k]);
      RunConcat(states[0], acts, more);
      acts := acts + more;
    }
  }

  /** So ceil(U / batchSize) batches that do clear the outbox can always be run. */
  lemma OutboxCanBeCleared(s: State, limit: nat) returns (acts: seq<Action>)
    requires s.declared && limit > 0
    ensures Valid(s, acts) && AvailableRows(Run(s, acts)) == {}
  {
    var batches := (|AvailableRows(s)| + limit - 1) / limit;
    var states := BatchesCanFollow(s, limit, batches);
    BatchesToClear(states, limit, batches);
    acts := BatchesAreARun(states, limit, batches);
  }
}
