/**
 * The approval queue, after `src/approval/in-memory-approval-store.ts`.
 *
 * `Queue` is the abstract queue: the rows in insertion order (a JavaScript `Map` iterates that
 * way, and replacing a value keeps its place) and the clock that numbers both rows and decisions.
 */
module Approvals {
  import opened Basics

  datatype Status = Pending | Approved | Rejected | ChangesRequested

  datatype Approval = Approval(
    id: nat,
    tenant: string,
    session: nat,
    toolCallId: string,
    toolName: string,
    input: string,
    status: Status,
    decidedBy: Option<string>,
    reason: Option<string>)

  datatype Request = Request(tenant: string, session: nat, toolCallId: string, toolName: string, input: string)

  datatype Queue = Queue(rows: seq<Approval>, clock: nat)

  /** What `request` leaves behind: the rows it created, and the call it refused, if any. */
  datatype Requested = Requested(queue: Queue, created: seq<Approval>, refused: Option<string>)

  const EMPTY := Queue([], 0)

  predicate HasCall(rows: seq<Approval>, session: nat, toolCallId: string) {
    exists i :: 0 <= i < |rows| && rows[i].session == session && rows[i].toolCallId == toolCallId
  }

  function NewRow(id: nat, r: Request): Approval {
    Approval(id, r.tenant, r.session, r.toolCallId, r.toolName, r.input, Pending, None, None)
  }

  /** Rows are created one by one; a call that already has a row stops the loop and undoes nothing. */
  function RequestAll(q: Queue, inputs: seq<Request>): Requested
    decreases |inputs|
  {
    if inputs == [] then Requested(q, [], None)
    else if HasCall(q.rows, inputs[0].session, inputs[0].toolCallId) then
      Requested(q, [], Some(inputs[0].toolCallId))
    else
      var row := NewRow(q.clock + 1, inputs[0]);
      var rest := RequestAll(Queue(q.rows + [row], q.clock + 1), inputs[1..]);
      Requested(rest.queue, [row] + rest.created, rest.refused)
  }

  function IndexOf(rows: seq<Approval>, id: nat): (i: nat)
    ensures i <= |rows|
    ensures i < |rows| ==> rows[i].id == id
    ensures forall j :: 0 <= j < i ==> rows[j].id != id
  {
    if rows == [] then 0
    else if rows[0].id == id then 0
    else 1 + IndexOf(rows[1..], id)
  }

  /** The row with this id, when it belongs to the tenant. */
  function Lookup(q: Queue, tenant: string, id: nat): Option<Approval> {
    var i := IndexOf(q.rows, id);
    if i < |q.rows| && q.rows[i].tenant == tenant then Some(q.rows[i]) else None
  }

  /** Only a pending row of the tenant can be decided; anything else is refused. */
  function CanDecide(q: Queue, tenant: string, id: nat): bool {
    Lookup(q, tenant, id).Some? && Lookup(q, tenant, id).value.status == Pending
  }

  function Decided(q: Queue, tenant: string, id: nat, status: Status, who: string, reason: Option<string>): Queue
    requires status != Pending
  {
    if CanDecide(q, tenant, id) then
      var i := IndexOf(q.rows, id);
      Queue(q.rows[i := q.rows[i].(status := status, decidedBy := Some(who), reason := reason)], q.clock + 1)
    else q
  }

  function RowsFor(q: Queue, tenant: string, session: nat, ids: set<string>): seq<Approval> {
    Filter((a: Approval) => a.tenant == tenant && a.session == session && a.toolCallId in ids, q.rows)
  }

  /**
   * What a lookup gives: the rows at certain places of the queue, in the order of the queue; in a sound queue no
   * more than one for each call asked about.
   */
  lemma RowsForInOrder(q: Queue, tenant: string, session: nat, ids: set<string>) returns (places: seq<nat>)
    ensures var rows := RowsFor(q, tenant, session, ids);
      |places| == |rows| && forall k :: 0 <= k < |rows| ==> places[k] < |q.rows| && rows[k] == q.rows[places[k]]
    ensures forall j, k :: 0 <= j < k < |places| ==> places[j] < places[k]
    ensures forall i: nat :: i in places <==>
      i < |q.rows| && q.rows[i].tenant == tenant && q.rows[i].session == session && q.rows[i].toolCallId in ids
    ensures var rows := RowsFor(q, tenant, session, ids);
      Sound(q) ==> forall j, k :: 0 <= j < k < |rows| ==> rows[j].toolCallId != rows[k].toolCallId
  {
    places := FilterPlaces((a: Approval) => a.tenant == tenant && a.session == session && a.toolCallId in ids, q.rows);
    var rows := RowsFor(q, tenant, session, ids);
    if Sound(q) {
      forall j, k | 0 <= j < k < |rows| ensures rows[j].toolCallId != rows[k].toolCallId {
        assert places[j] in places && places[k] in places;
      }
    }
  }

  /** Ids are unique and no larger than the clock; a session holds at most one row per tool call. */
  ghost predicate Sound(q: Queue) {
    && (forall i :: 0 <= i < |q.rows| ==> q.rows[i].id <= q.clock)
    && (forall i, j :: 0 <= i < j < |q.rows| ==> q.rows[i].id != q.rows[j].id)
    && (forall i, j :: 0 <= i < j < |q.rows| ==>
          q.rows[i].session != q.rows[j].session || q.rows[i].toolCallId != q.rows[j].toolCallId)
  }

  /** What survives from one queue to a later one: rows keep their place and identity, and a decision is final. */
  ghost predicate Extends(old_: Queue, new_: Queue) {
    && |old_.rows| <= |new_.rows|
    && old_.clock <= new_.clock
    && (forall i :: 0 <= i < |old_.rows| ==>
          && new_.rows[i].id == old_.rows[i].id
          && new_.rows[i].tenant == old_.rows[i].tenant
          && new_.rows[i].session == old_.rows[i].session
          && new_.rows[i].toolCallId == old_.rows[i].toolCallId
          && new_.rows[i].toolName == old_.rows[i].toolName
          && new_.rows[i].input == old_.rows[i].input)
    && (forall i :: 0 <= i < |old_.rows| && old_.rows[i].status != Pending ==> new_.rows[i] == old_.rows[i])
  }

  /** The row somebody may decide. */
  ghost predicate Open(q: Queue, i: nat, tenant: string, id: nat) {
    i < |q.rows| && q.rows[i].id == id && q.rows[i].tenant == tenant && q.rows[i].status == Pending
  }

  /**
   * A decision gives the tenant's pending row of that id its status, who decided it and why, and changes nothing else;
   * where there is no such row it changes nothing at all.
   */
  lemma DecideSets(q: Queue, tenant: string, id: nat, status: Status, who: string, reason: Option<string>)
    requires Sound(q) && status != Pending
    ensures CanDecide(q, tenant, id) <==> exists i: nat :: Open(q, i, tenant, id)
    ensures forall i: nat :: Open(q, i, tenant, id) ==>
      Decided(q, tenant, id, status, who, reason).rows == q.rows[i := q.rows[i].(status := status, decidedBy := Some(who), reason := reason)]
    ensures (forall i: nat :: !Open(q, i, tenant, id)) ==> Decided(q, tenant, id, status, who, reason) == q
  {
    var n := IndexOf(q.rows, id);
    if CanDecide(q, tenant, id) { assert Open(q, n, tenant, id); }
    forall i: nat | Open(q, i, tenant, id) ensures i == n && CanDecide(q, tenant, id) {
      FindIsTheRow(q, i);
    }
  }

  lemma DecideKeeps(q: Queue, tenant: string, id: nat, status: Status, who: string, reason: Option<string>)
    requires Sound(q) && status != Pending
    ensures Sound(Decided(q, tenant, id, status, who, reason))
    ensures Extends(q, Decided(q, tenant, id, status, who, reason))
  {
    var q' := Decided(q, tenant, id, status, who, reason);
    assert forall i :: 0 <= i < |q.rows| ==> q'.rows[i].id == q.rows[i].id;
    assert forall i :: 0 <= i < |q.rows| ==> q'.rows[i].session == q.rows[i].session && q'.rows[i].toolCallId == q.rows[i].toolCallId;
  }

  /** The rows `request` adds, in the order of the inputs, and where it stopped. */
  lemma {:induction false} RequestAppends(q: Queue, inputs: seq<Request>)
    ensures var r := RequestAll(q, inputs);
      && r.queue == Queue(q.rows + r.created, q.clock + |r.created|)
      && |r.created| <= |inputs|
      && (r.refused.None? ==> |r.created| == |inputs|)
      && forall i :: 0 <= i < |r.created| ==> r.created[i] == NewRow(q.clock + 1 + i, inputs[i])
    decreases |inputs|
  {
    if inputs != [] && !HasCall(q.rows, inputs[0].session, inputs[0].toolCallId) {
      var row := NewRow(q.clock + 1, inputs[0]);
      var q1 := Queue(q.rows + [row], q.clock + 1);
      RequestAppends(q1, inputs[1..]);
      var r, rest := RequestAll(q, inputs), RequestAll(q1, inputs[1..]);
      assert (q.rows + [row]) + rest.created == q.rows + r.created;
      forall i | 0 <= i < |r.created| ensures r.created[i] == NewRow(q.clock + 1 + i, inputs[i]) {
        if i > 0 { assert r.created[i] == rest.created[i - 1]; }
      }
    }
  }

  lemma {:induction false} RequestKeeps(q: Queue, inputs: seq<Request>)
    requires Sound(q)
    ensures Sound(RequestAll(q, inputs).queue) && Extends(q, RequestAll(q, inputs).queue)
    decreases |inputs|
  {
    if inputs != [] && !HasCall(q.rows, inputs[0].session, inputs[0].toolCallId) {
      var q1 := Queue(q.rows + [NewRow(q.clock + 1, inputs[0])], q.clock + 1);
      assert forall i :: 0 <= i < |q.rows| ==> q1.rows[i] == q.rows[i];
      RequestKeeps(q1, inputs[1..]);
      ExtendsTransitive(q, q1, RequestAll(q1, inputs[1..]).queue);
    }
  }

  /** No call of `inputs` has a row yet and none is asked for twice, so every row is created. */
  lemma {:induction false} FreshRequestsAreAllCreated(q: Queue, inputs: seq<Request>)
    requires forall i :: 0 <= i < |inputs| ==> !HasCall(q.rows, inputs[i].session, inputs[i].toolCallId)
    requires forall i, j :: 0 <= i < j < |inputs| ==>
      inputs[i].session != inputs[j].session || inputs[i].toolCallId != inputs[j].toolCallId
    ensures RequestAll(q, inputs).refused == None
    decreases |inputs|
  {
    if inputs != [] {
      var row := NewRow(q.clock + 1, inputs[0]);
      var q1 := Queue(q.rows + [row], q.clock + 1);
      forall i | 0 <= i < |inputs[1..]|
        ensures !HasCall(q1.rows, inputs[1..][i].session, inputs[1..][i].toolCallId)
      {
        assert inputs[1..][i] == inputs[i + 1];
        assert !HasCall(q.rows, inputs[i + 1].session, inputs[i + 1].toolCallId);
        assert forall k :: 0 <= k < |q.rows| ==> q1.rows[k] == q.rows[k];
      }
      FreshRequestsAreAllCreated(q1, inputs[1..]);
    }
  }

  lemma FindIsTheRow(q: Queue, i: nat)
    requires Sound(q) && i < |q.rows|
    ensures IndexOf(q.rows, q.rows[i].id) == i
    ensures Lookup(q, q.rows[i].tenant, q.rows[i].id) == Some(q.rows[i])
  {
    var j := IndexOf(q.rows, q.rows[i].id);
    assert j >= i;
  }

  lemma ExtendsTransitive(a: Queue, b: Queue, c: Queue)
    requires Extends(a, b) && Extends(b, c)
    ensures Extends(a, c)
  {
    forall i | 0 <= i < |a.rows| && a.rows[i].status != Pending ensures c.rows[i] == a.rows[i] {
      assert b.rows[i] == a.rows[i];
    }
  }

  /** The store itself. Every method is tied to the abstract queue. */
  class InMemoryApprovalStore {
    var approvals: seq<Approval>
    var clock: nat

    ghost function Contents(): Queue
      reads this
    {
      Queue(approvals, clock)
    }

    constructor ()
      ensures Contents() == EMPTY
    {
      approvals, clock := [], 0;
    }

    method Request(inputs: seq<Request>) returns (r: Result<seq<Approval>, string>)
      modifies this
      ensures var spec := RequestAll(old(Contents()), inputs);
        && Contents() == spec.queue
        && r == (if spec.refused.Some? then Err(spec.refused.value) else Ok(spec.created))
    {
      var created: seq<Approval> := [];
      var i := 0;
      while i < |inputs|
        invariant 0 <= i <= |inputs|
        invariant var done, spec := RequestAll(Contents(), inputs[i..]), RequestAll(old(Contents()), inputs);
          && spec.queue == done.queue && spec.refused == done.refused && spec.created == created + done.created
      {
        var input := inputs[i];
        assert inputs[i..][1..] == inputs[i + 1..];
        if HasCall(approvals, input.session, input.toolCallId) {
          return Err(input.toolCallId);
        }
        clock := clock + 1;
        var approval := NewRow(clock, input);
        approvals := approvals + [approval];
        created := created + [approval];
        i := i + 1;
      }
      assert RequestAll(Contents(), inputs[i..]) == Requested(Contents(), [], None);
      assert created + [] == created;
      return Ok(created);
    }

    method Find(tenant: string, id: nat) returns (r: Option<Approval>)
      ensures r == Lookup(Contents(), tenant, id)
    {
      var i := 0;
      while i < |approvals|
        invariant 0 <= i <= |approvals|
        invariant IndexOf(approvals, id) == i + IndexOf(approvals[i..], id)
      {
        assert approvals[i..][1..] == approvals[i + 1..];
        if approvals[i].id == id {
          return if approvals[i].tenant == tenant then Some(approvals[i]) else None;
        }
        i := i + 1;
      }
      return None;
    }

    /** The three decisions share one rule: the row must exist, be the tenant's and be pending. */
    method Decide(tenant: string, id: nat, status: Status, who: string, reason: Option<string>) returns (ok: bool)
      requires status != Pending
      modifies this
      ensures ok == CanDecide(old(Contents()), tenant, id)
      ensures Contents() == Decided(old(Contents()), tenant, id, status, who, reason)
    {
      var found := Find(tenant, id);
      if found.None? || found.value.status != Pending {
        return false;
      }
      var i := IndexOf(approvals, id);
      clock := clock + 1;
      approvals := approvals[i := found.value.(status := status, decidedBy := Some(who), reason := reason)];
      return true;
    }

    /** The rows there are for these calls, whatever was decided. */
    method ForToolCalls(tenant: string, session: nat, ids: seq<string>) returns (r: seq<Approval>)
      ensures r == RowsFor(Contents(), tenant, session, set id | id in ids)
      ensures forall a :: a in r <==> a in approvals && a.tenant == tenant && a.session == session && a.toolCallId in ids
    {
      var wanted := set id | id in ids;
      r := [];
      for i := 0 to |approvals|
        invariant r == RowsFor(Queue(approvals[..i], clock), tenant, session, wanted)
      {
        FilterPush((a: Approval) => a.tenant == tenant && a.session == session && a.toolCallId in wanted, approvals, i);
        var approval := approvals[i];
        if approval.tenant == tenant && approval.session == session && approval.toolCallId in wanted {
          r := r + [approval];
        }
      }
      assert approvals[..|approvals|] == approvals;
    }
  }
}
