/** One end of an authenticated config channel. It sends at most one batch at a
    time and keeps it until the matching acknowledgement; it answers batches of
    the other side through its receiver. */
module ConfigChannel {
  import opened Wrappers
  import opened AntiEntropy
  import opened ConfigReceiver

  // Re-admitting the remote member when a finished receiver must start over.
  datatype Admission = Admitted | TokenMissing | Refused

  datatype Handled = Handled(receiver: Option<Receiver>, durable: Durable, ack: Result<Ack, Error>)

  // A finished receiver that cannot replay a batch starts over if the batch
  // opens a plan. A refused re-admission leaves the channel without receiver.
  function AcceptBatch(space: string, r: Option<Receiver>, w: Durable, b: Batch, admission: Admission, faults: Faults): Handled {
    if r.None? then Handled(None, w, Failure(Invalid))
    else
      var first := ReceiverAdd(r.value, w, b, faults);
      if first.ack == Failure(Order) && first.receiver.completed && b.start == ORIGIN then
        match admission
        case TokenMissing => Handled(Some(first.receiver), first.durable, Failure(Denied))
        case Refused => Handled(None, first.durable, Failure(Denied))
        case Admitted =>
          var again := ReceiverAdd(NewReceiver(space), first.durable, b, faults);
          Handled(Some(again.receiver), again.durable, again.ack)
      else Handled(Some(first.receiver), first.durable, first.ack)
  }

  predicate AckMatches(space: string, outstanding: Option<Batch>, ack: Ack) {
    && outstanding.Some? && ack.space == space
    && ack.done == outstanding.value.done
    && ack.cursor == After(outstanding.value.start, outstanding.value.chunks)
  }

  class ConfigChannel {
    const space: string
    const owners: DurableOwners
    var plan: Option<Plan>
    var outstanding: Option<Batch>
    var recorded: set<Item>
    var receiver: SyncReceiver?

    predicate Valid()
      reads this, receiver
    {
      && (receiver != null ==> receiver.owners == owners && receiver.assembler.space == space)
      && (plan.Some? <==> outstanding.Some?)
      && (outstanding.Some? ==> plan.value.space == space && outstanding.value.space == space)
    }

    function ReceiverState(): Option<Receiver>
      reads this, receiver, if receiver == null then {} else {receiver.assembler}
    {
      if receiver == null then None else Some(receiver.State())
    }

    constructor (space: string, owners: DurableOwners)
      ensures Valid() && this.space == space && this.owners == owners
      ensures outstanding.None? && recorded == {} && ReceiverState() == Some(NewReceiver(space))
    {
      this.space, this.owners, plan, outstanding, recorded := space, owners, None, None, {};
      receiver := new SyncReceiver(space, owners);
    }

    // The exact last batch again, or nothing when none is outstanding.
    method RetryOutstanding() returns (message: Option<Batch>)
      ensures message == outstanding
    {
      message := outstanding;
    }

    method HandleInventory(size: Batch -> nat, planned: Plan) returns (r: Result<Batch, Error>)
      requires Valid() && PlanItems(planned.items) && planned.space == space
      modifies this`plan, this`outstanding
      ensures Valid()
      ensures r.Success? ==> Continues(planned, ORIGIN, r.value) && plan == Some(planned) && outstanding == Some(r.value)
      ensures r.Failure? ==> plan == old(plan) && outstanding == old(outstanding)
    {
      r := Next(size, planned, None);
      if r.Success? {
        plan, outstanding := Some(planned), Some(r.value);
      }
    }

    method HandleBatch(batch: Batch, admission: Admission, faults: Faults) returns (r: Result<Ack, Error>)
      requires Valid()
      modifies this`receiver, receiver, if receiver == null then {} else {receiver.assembler}, owners
      ensures Valid()
      ensures Handled(ReceiverState(), owners.State(), r)
           == AcceptBatch(space, old(ReceiverState()), old(owners.State()), batch, admission, faults)
    {
      if receiver == null {
        return Failure(Invalid);
      }
      r := receiver.Add(batch, faults);
      if r == Failure(Order) && receiver.completed && batch.start == ORIGIN {
        if admission == TokenMissing {
          return Failure(Denied);
        }
        if admission == Refused {
          receiver := null;
          return Failure(Denied);
        }
        receiver := new SyncReceiver(space, owners);
        r := receiver.Add(batch, faults);
      }
    }

    // A mismatched acknowledgement changes nothing; a terminal one clears the
    // plan and records the frontier; any other releases the next batch.
    method HandleAck(size: Batch -> nat, ack: Ack) returns (r: Result<Option<Batch>, Error>)
      requires Valid() && (plan.Some? ==> PlanItems(plan.value.items))
      modifies this`plan, this`outstanding, this`recorded
      ensures Valid()
      ensures !AckMatches(space, old(outstanding), ack) ==> r == Failure(Order)
      ensures (old(outstanding).None? || ack.space != space || ack.done != old(outstanding).value.done
               || ack.cursor != After(old(outstanding).value.start, old(outstanding).value.chunks)) ==> r == Failure(Order)
      ensures r.Failure? ==> plan == old(plan) && outstanding == old(outstanding) && recorded == old(recorded)
      ensures AckMatches(space, old(outstanding), ack) && ack.done ==>
                r == Success(None) && plan.None? && outstanding.None? && recorded == old(recorded) + ack.frontier
      ensures r.Success? && !ack.done ==>
                r.value == outstanding && plan == old(plan) && recorded == old(recorded)
                && outstanding.Some? && Continues(plan.value, ack.cursor, outstanding.value)
    {
      if plan.None? || outstanding.None? || ack.space != outstanding.value.space || ack.done != outstanding.value.done {
        return Failure(Order);
      }
      var accepted := AcceptedCursor(outstanding.value);
      if ack.cursor != accepted {
        return Failure(Order);
      }
      if ack.done {
        plan, outstanding, recorded := None, None, recorded + ack.frontier;
        return Success(None);
      }
      var next := Next(size, plan.value, Some(ack.cursor));
      if next.Failure? {
        return Failure(next.error);
      }
      outstanding := Some(next.value);
      return Success(outstanding);
    }
  }
}
