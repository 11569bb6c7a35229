/**
 * relayOutboxBatch as the method it is: select a batch, then for each row count the attempt, publish, mark;
 * commit at the end, or roll back at the first failure. The table rolls back, the broker does not.
 */
module Relay {
  import opened Options
  import opened Messages
  import opened Sums
  import opened Pipeline
  import opened PipelineInvariant
  import Orders

  type Outbox = map<nat, Orders.OutboxRow>

  /** Rows a SELECT ... FOR UPDATE SKIP LOCKED can return while others hold `locked`. */
  ghost function Claimable(outbox: Outbox, locked: set<nat>): set<nat> {
    set x | x in outbox && !outbox[x].published && x !in locked
  }

  /** The first `limit` claimable rows in (created_at, id) order. */
  ghost predicate IsSelection(outbox: Outbox, locked: set<nat>, limit: nat, rows: seq<nat>) {
    && |rows| <= limit
    && (forall i | 0 <= i < |rows| :: rows[i] in Claimable(outbox, locked))
    && (forall i, j | 0 <= i < j < |rows| :: Before(outbox, rows[i], rows[j]))
    && (forall y | y in Claimable(outbox, locked) && y !in rows ::
          |rows| == limit && forall i | 0 <= i < |rows| :: Before(outbox, rows[i], y))
  }

  /** Unpublished rows that nobody else holds, oldest first and ties by id, at most `limit`, and none left out that
      would come before the last. */
  lemma SelectionByFields(outbox: Outbox, locked: set<nat>, limit: nat, rows: seq<nat>)
    requires IsSelection(outbox, locked, limit, rows)
    ensures |rows| <= limit
    ensures forall i | 0 <= i < |rows| :: rows[i] in outbox && !outbox[rows[i]].published && rows[i] !in locked
    ensures forall i, j | 0 <= i < j < |rows| ::
              outbox[rows[i]].createdAt < outbox[rows[j]].createdAt ||
              (outbox[rows[i]].createdAt == outbox[rows[j]].createdAt && rows[i] < rows[j])
    ensures forall y | y in outbox && !outbox[y].published && y !in locked && y !in rows ::
              && |rows| == limit
              && forall i | 0 <= i < |rows| ::
                   outbox[rows[i]].createdAt < outbox[y].createdAt ||
                   (outbox[rows[i]].createdAt == outbox[y].createdAt && rows[i] < y)
  {
    forall y | y in outbox && !outbox[y].published && y !in locked ensures y in Claimable(outbox, locked) {
    }
  }

  ghost function LockedRows(s: State): set<nat> {
    set x | x in s.shop.outbox && Locked(s, x)
  }

  /** What the method selects is what the machine's claim may take. */
  lemma SelectionIsBatch(s: State, limit: nat, rows: seq<nat>)
    ensures IsSelection(s.shop.outbox, LockedRows(s), limit, rows) <==> IsBatch(s, limit, rows)
  {
    assert forall x :: x in Claimable(s.shop.outbox, LockedRows(s)) <==> Available(s, x);
  }

  function Payloads(outbox: Outbox, rows: seq<nat>): (msgs: seq<Message>)
    requires forall i | 0 <= i < |rows| :: rows[i] in outbox
    ensures |msgs| == |rows|
  {
    seq(|rows|, i requires 0 <= i < |rows| => outbox[rows[i]].payload)
  }

  // ---- An uninterrupted batch as a run of the pipeline ----

  /** The broker after it has taken the first k rows of a batch. */
  ghost function CopiesAfter(s: State, rows: seq<nat>, k: nat): map<nat, Copy>
    requires k <= |rows| && forall i | 0 <= i < |rows| :: rows[i] in s.shop.outbox
  {
    if k == 0 then s.copies
    else
      var x := rows[k - 1];
      CopiesAfter(s, rows, k - 1)[s.nextCopy + k - 1 :=
        Copy(s.shop.outbox[x].payload, Some(x), if s.bound then Queued else Unrouted)]
  }

  /** After relay r has sent and marked k of its rows, with the next one in the given phase. */
  ghost function DuringBatch(s: State, r: nat, rows: seq<nat>, k: nat, phase: RelayPhase): State
    requires k <= |rows| && forall i | 0 <= i < |rows| :: rows[i] in s.shop.outbox
    requires phase.Sent? ==> k < |rows|
  {
    var sent := if phase.Sent? then k + 1 else k;
    s.(relays := s.relays[r := RelayTx(rows, k, phase)],
       copies := CopiesAfter(s, rows, sent),
       nextCopy := s.nextCopy + sent)
  }

  lemma {:induction false} Extend(s: State, acts: seq<Action>, a: Action)
    requires Valid(s, acts) && Enabled(Run(s, acts), a)
    ensures Valid(s, acts + [a]) && Run(s, acts + [a]) == Apply(Run(s, acts), a)
    decreases |acts|
  {
    if acts == [] {
      assert acts + [a] == [a];
    } else {
      assert (acts + [a])[0] == acts[0] && (acts + [a])[1..] == acts[1..] + [a];
      Extend(Apply(s, acts[0]), acts[1..], a);
    }
  }

  lemma AttemptRow(s: State, r: nat, rows: seq<nat>, k: nat)
    requires k < |rows| && forall i | 0 <= i < |rows| :: rows[i] in s.shop.outbox
    ensures Enabled(DuringBatch(s, r, rows, k, Idle), RelayAttempt(r))
    ensures Apply(DuringBatch(s, r, rows, k, Idle), RelayAttempt(r)) == DuringBatch(s, r, rows, k, Attempted)
  {
  }

  lemma SendRow(s: State, r: nat, rows: seq<nat>, k: nat)
    requires k < |rows| && forall i | 0 <= i < |rows| :: rows[i] in s.shop.outbox
    requires s.declared
    ensures Enabled(DuringBatch(s, r, rows, k, Attempted), RelaySend(r))
    ensures Apply(DuringBatch(s, r, rows, k, Attempted), RelaySend(r)) == DuringBatch(s, r, rows, k, Sent)
  {
  }

  lemma MarkRow(s: State, r: nat, rows: seq<nat>, k: nat)
    requires k < |rows| && forall i | 0 <= i < |rows| :: rows[i] in s.shop.outbox
    ensures Enabled(DuringBatch(s, r, rows, k, Sent), RelayMark(r))
    ensures Apply(DuringBatch(s, r, rows, k, Sent), RelayMark(r)) == DuringBatch(s, r, rows, k + 1, Idle)
  {
  }

  lemma RowRun(s: State, r: nat, rows: seq<nat>, k: nat, acts: seq<Action>) returns (acts': seq<Action>)
    requires s.declared && k < |rows| && forall i | 0 <= i < |rows| :: rows[i] in s.shop.outbox
    requires Valid(s, acts) && Run(s, acts) == DuringBatch(s, r, rows, k, Idle)
    ensures Valid(s, acts') && Run(s, acts') == DuringBatch(s, r, rows, k + 1, Idle)
  {
    AttemptRow(s, r, rows, k);
    Extend(s, acts, RelayAttempt(r));
    acts' := acts + [RelayAttempt(r)];
    SendRow(s, r, rows, k);
    Extend(s, acts', RelaySend(r));
    acts' := acts' + [RelaySend(r)];
    MarkRow(s, r, rows, k);
    Extend(s, acts', RelayMark(r));
    acts' := acts' + [RelayMark(r)];
  }

  lemma ClaimRun(s: State, r: nat, limit: nat, rows: seq<nat>) returns (acts: seq<Action>)
    requires Enabled(s, RelayClaim(r, limit, rows))
    requires forall i | 0 <= i < |rows| :: rows[i] in s.shop.outbox
    ensures Valid(s, acts) && Run(s, acts) == DuringBatch(s, r, rows, 0, Idle)
  {
    acts := [];
    Extend(s, acts, RelayClaim(r, limit, rows));
    acts := acts + [RelayClaim(r, limit, rows)];
  }

  lemma {:induction false} RowsRun(s: State, r: nat, rows: seq<nat>, k: nat,
      start: seq<Action>) returns (acts: seq<Action>)
    requires s.declared && k <= |rows| && forall i | 0 <= i < |rows| :: rows[i] in s.shop.outbox
    requires Valid(s, start) && Run(s, start) == DuringBatch(s, r, rows, 0, Idle)
    ensures Valid(s, acts) && Run(s, acts) == DuringBatch(s, r, rows, k, Idle)
    decreases k
  {
    if k == 0 {
      acts := start;
    } else {
      acts := RowsRun(s, r, rows, k - 1, start);
      acts := RowRun(s, r, rows, k - 1, acts);
    }
  }

  lemma CommitWhole(t: State, r: nat, rows: seq<nat>, others: map<nat, RelayTx>)
    requires r !in others && t.relays == others[r := RelayTx(rows, |rows|, Idle)]
    ensures Enabled(t, RelayCommit(r))
    ensures CommitRelay(t, r) == t.(shop := t.shop.(outbox := MarkRows(t.shop.outbox, rows)), relays := others)
  {
    assert t.relays - {r} == others;
  }

  lemma CommitBatch(s: State, r: nat, rows: seq<nat>)
    requires r !in s.relays && forall i | 0 <= i < |rows| :: rows[i] in s.shop.outbox
    ensures Enabled(DuringBatch(s, r, rows, |rows|, Idle), RelayCommit(r))
    ensures CommitRelay(DuringBatch(s, r, rows, |rows|, Idle), r) ==
            s.(shop := s.shop.(outbox := MarkRows(s.shop.outbox, rows)),
               copies := CopiesAfter(s, rows, |rows|),
               nextCopy := s.nextCopy + |rows|)
  {
    CommitWhole(DuringBatch(s, r, rows, |rows|, Idle), r, rows, s.relays);
  }

  /** After an undisturbed batch. */
  ghost function AfterBatch(s: State, rows: seq<nat>): State
    requires forall i | 0 <= i < |rows| :: rows[i] in s.shop.outbox
  {
    s.(shop := s.shop.(outbox := MarkRows(s.shop.outbox, rows)),
       copies := CopiesAfter(s, rows, |rows|),
       nextCopy := s.nextCopy + |rows|)
  }

  lemma BatchRowsExist(s: State, limit: nat, rows: seq<nat>)
    requires IsBatch(s, limit, rows)
    ensures forall i | 0 <= i < |rows| :: rows[i] in s.shop.outbox
  {
    assert forall i | 0 <= i < |rows| :: Available(s, rows[i]);
  }

  /** A batch that meets no failure marks exactly its rows and hands exactly their payloads to the broker. */
  lemma BatchRun(s: State, r: nat, limit: nat, rows: seq<nat>) returns (acts: seq<Action>)
    requires s.declared && Enabled(s, RelayClaim(r, limit, rows))
    ensures forall i | 0 <= i < |rows| :: rows[i] in s.shop.outbox
    ensures Valid(s, acts) && Run(s, acts) == AfterBatch(s, rows)
  {
    BatchRowsExist(s, limit, rows);
    acts := ClaimRun(s, r, limit, rows);
    acts := RowsRun(s, r, rows, |rows|, acts);
    CommitBatch(s, r, rows);
    Extend(s, acts, RelayCommit(r));
    acts := acts + [RelayCommit(r)];
  }

  // ---- The method ----

  datatype RelayStats = RelayStats(selected: nat, published: nat, markedPublished: nat)
  datatype RelayResult = Committed(stats: RelayStats) | RolledBack(at: nat, reached: bool)

  /** When a channel or connection is lost: before the broker takes the message, before it confirms, or before the call
      closes the channel. */
  datatype Stage = Accept | Confirm | Close

  /** What can go wrong in one publish: no connection, no channel on it, the channel lost alone or with its connection,
      or the connection lost when only it is left to be closed. */
  datatype Fault =
    | NoFault
    | CannotConnect
    | CannotOpenChannel
    | ChannelLost(before: Stage)
    | ConnectionLost(before: Stage)
    | LostAtDisconnect

  predicate LostBefore(fault: Fault, stage: Stage) {
    (fault.ChannelLost? || fault.ConnectionLost?) && fault.before == stage
  }

  /** A publish throws nothing only when the exchange exists and nothing went wrong. */
  predicate Confirms(declared: bool, fault: Fault) {
    declared && fault.NoFault?
  }

  /** Whether the broker took the message before the call ended. */
  predicate Reaches(declared: bool, fault: Fault) {
    declared && !fault.CannotConnect? && !fault.CannotOpenChannel? && !LostBefore(fault, Accept)
  }

  /** A connection outlives its call when no channel was opened on it, or the channel was closed by the other side while
      the connection held - by a fault or, the exchange being absent, by the broker: closing the channel then throws and
      the connection is never closed. */
  predicate LeavesOpen(declared: bool, fault: Fault) {
    || fault.CannotOpenChannel?
    || fault.ChannelLost?
    || (!declared && !fault.CannotConnect? && !fault.ConnectionLost?)
  }

  /** Marking one more row of a batch in (created_at, id) order. */
  lemma MarkOneMore(outbox: Outbox, locked: set<nat>, limit: nat, rows: seq<nat>, i: nat)
    requires IsSelection(outbox, locked, limit, rows) && i < |rows|
    ensures MarkRows(outbox, rows[..i + 1]) == MarkRows(outbox, rows[..i])[rows[i] := Mark(outbox[rows[i]])]
    ensures MarkRows(outbox, rows[..i])[rows[i]] == outbox[rows[i]]
    ensures Payloads(outbox, rows[..i + 1]) == Payloads(outbox, rows[..i]) + [outbox[rows[i]].payload]
  {
    assert forall j | 0 <= j < i :: Before(outbox, rows[j], rows[i]);
    assert rows[..i + 1] == rows[..i] + [rows[i]];
  }

  /** `locked` are the rows other relays hold, `declared` says that the exchange exists, `sent` is what the broker has
      taken, `connections` counts the open ones. */
  class OutboxRelay {
    var outbox: Outbox
    var locked: set<nat>
    var declared: bool
    var sent: seq<Message>
    var connections: int

    /** The earliest claimable row not yet chosen, if any. */
    method EarliestExcept(chosen: seq<nat>) returns (first: Option<nat>)
      ensures first.None? <==> forall x | x in Claimable(outbox, locked) :: x in chosen
      ensures first.Some? ==>
                first.value in Claimable(outbox, locked) && first.value !in chosen &&
                forall y | y in Claimable(outbox, locked) && y !in chosen &&
                    y != first.value :: Before(outbox, first.value, y)
    {
      var rest := outbox.Keys;
      first := None;
      while rest != {}
        invariant rest <= outbox.Keys
        invariant first.None? ==> forall y | y in Claimable(outbox, locked) && y !in rest :: y in chosen
        invariant first.Some? ==>
                    first.value in Claimable(outbox, locked) && first.value !in chosen && first.value !in rest
        invariant first.Some? ==>
                    forall y | y in Claimable(outbox, locked) && y !in rest && y !in chosen && y != first.value ::
                      Before(outbox, first.value, y)
        decreases rest
      {
        var x :| x in rest;
        rest := rest - {x};
        if !outbox[x].published && x !in locked && x !in chosen && (first.None? || Before(outbox, x, first.value)) {
          first := Some(x);
        }
      }
    }

    method SelectBatch(limit: nat) returns (rows: seq<nat>)
      ensures IsSelection(outbox, locked, limit, rows)
    {
      rows := [];
      while |rows| < limit
        invariant |rows| <= limit
        invariant forall i | 0 <= i < |rows| :: rows[i] in Claimable(outbox, locked)
        invariant forall i, j | 0 <= i < j < |rows| :: Before(outbox, rows[i], rows[j])
        invariant forall y, i | y in Claimable(outbox, locked) && y !in rows &&
                  0 <= i < |rows| :: Before(outbox, rows[i], y)
        decreases limit - |rows|
      {
        var next := EarliestExcept(rows);
        if next.None? {
          return;
        }
        rows := rows + [next.value];
      }
    }

    /** Returning normally means that the broker took the message, once, and that the connection is closed; an error
        leaves open whether it did, and in the cases of LeavesOpen the connection too. */
    method PublishOrderPlaced(msg: Message, fault: Fault) returns (confirmed: bool)
      modifies `sent, `connections
      ensures confirmed <==> Confirms(declared, fault)
      ensures confirmed ==> sent == old(sent) + [msg] && connections == old(connections)
      ensures sent == if Reaches(declared, fault) then old(sent) + [msg] else old(sent)
      ensures connections == old(connections) + if LeavesOpen(declared, fault) then 1 else 0
    {
      if fault.CannotConnect? {
        return false;
      }
      connections := connections + 1;
      if fault.CannotOpenChannel? {
        return false;
      }
      var channelOpen := declared && !LostBefore(fault, Accept);
      if channelOpen {
        sent := sent + [msg];
        channelOpen := !LostBefore(fault, Confirm) && !LostBefore(fault, Close);
      }
      if fault.ConnectionLost? {
        connections := connections - 1;
      }
      if !channelOpen {
        return false;
      }
      connections := connections - 1;
      return !fault.LostAtDisconnect?;
    }

    /** Either everything commits, or the table is untouched and the broker keeps what had reached it. At most one
        connection is left open, by the publish that failed. */
    method RelayOutboxBatch(batchSize: nat, crashAfterPublish: bool, fault: nat -> Fault)
      returns (r: RelayResult, rows: seq<nat>)
      modifies `outbox, `sent, `connections
      ensures IsSelection(old(outbox), locked, batchSize, rows)
      ensures r.Committed? <==>
                (!crashAfterPublish || rows == []) && forall i | 0 <= i < |rows| :: Confirms(declared, fault(i))
      ensures r.Committed? ==>
              && outbox == MarkRows(old(outbox), rows)
              && sent == old(sent) + Payloads(old(outbox), rows)
              && r.stats == RelayStats(|rows|, |rows|, |rows|)
      ensures r.RolledBack? ==>
              && outbox == old(outbox)
              && r.at < |rows| && (forall i | 0 <= i < r.at :: Confirms(declared, fault(i)))
              && (crashAfterPublish ==> r.at == 0) && (!crashAfterPublish ==> !Confirms(declared, fault(r.at)))
              && r.reached == Reaches(declared, fault(r.at))
              && sent == old(sent) + Payloads(old(outbox), rows[..if r.reached then r.at + 1 else r.at])
      ensures connections ==
              old(connections) + if r.RolledBack? && LeavesOpen(declared, fault(r.at)) then 1 else 0
    {
      rows := SelectBatch(batchSize);
      var work := outbox;
      var stats := RelayStats(|rows|, 0, 0);
      assert MarkRows(outbox, rows[..0]) == outbox;
      for i := 0 to |rows|
        invariant outbox == old(outbox) && work == MarkRows(outbox, rows[..i]) && connections == old(connections)
        invariant sent == old(sent) + Payloads(outbox, rows[..i])
        invariant stats == RelayStats(|rows|, i, i)
        invariant crashAfterPublish ==> i == 0
        invariant forall j | 0 <= j < i :: Confirms(declared, fault(j))
      {
        var x := rows[i];
        MarkOneMore(outbox, locked, batchSize, rows, i);
        work := work[x := work[x].(attempts := work[x].attempts + 1)];
        var confirmed := PublishOrderPlaced(outbox[x].payload, fault(i));
        assert !Reaches(declared, fault(i)) || sent == old(sent) + Payloads(outbox, rows[..i + 1]);
        if !confirmed {
          return RolledBack(i, Reaches(declared, fault(i))), rows;
        }
        stats := stats.(published := stats.published + 1);
        if crashAfterPublish {
          return RolledBack(i, true), rows;
        }
        work := work[x := work[x].(published := true)];
        stats := stats.(markedPublished := stats.markedPublished + 1);
      }
      assert rows[..|rows|] == rows;
      outbox := work;
      return Committed(stats), rows;
    }
  }
}
