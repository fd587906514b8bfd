/**
 * The aggregate root as an object updated in place: the version-checked
 * `mutate`, the creation and trigger paths, the FIFO drain of the pending
 * events, and the Account business operations built on them.
 */
module Aggregates {
  import opened Results
  import opened Topics
  import opened Domain

  /**
   * An Account aggregate: the `Aggregate` base fields (`id`, `version`,
   * `timestamp`, `pendingEvents`) and the Account fields. `history` is the
   * ghost record of every event applied to this object, in order; the part
   * of it before the pending events is what `Collect` has already handed out.
   */
  class Account {
    var id: Uuid
    var version: int
    var timestamp: Timestamp
    var pendingEvents: seq<Event>
    var fullName: string
    var emailAddress: string
    var balance: Money
    var overdraftLimit: Money
    var isClosed: bool
    ghost var history: seq<Event>

    /** The fields of this object other than the pending buffer. */
    function State(): (r: AccountState)
      reads this
    {
      AccountState(id, version, timestamp, fullName, emailAddress, balance, overdraftLimit, isClosed)
    }

    /** The object is exactly what replaying its history produces. */
    ghost predicate Folded()
      reads this
    {
      Replay(Runtime, None, history) == Ok(Some(State()))
    }

    /**
     * The aggregate invariant between operations: the object is the replay
     * of the events already collected followed by the pending ones.
     */
    ghost predicate Valid()
      reads this
    {
      && Folded()
      && |pendingEvents| <= |history|
      && Committed() + pendingEvents == history
    }

    /** The applied events that are no longer pending: those already collected. */
    ghost function Committed(): (r: seq<Event>)
      requires |pendingEvents| <= |history|
      reads this
    {
      history[..|history| - |pendingEvents|]
    }

    /**
     * The dataclass constructor followed by `__post_init__`: balance and
     * overdraft limit default to zero, the account is open, the pending
     * buffer is empty. The object is what replaying the Account creation
     * event with these fields gives, so the ghost history records that
     * event as already collected.
     */
    constructor (id: Uuid, version: int, timestamp: Timestamp, fullName: string, emailAddress: string)
      ensures State() == AccountState(id, version, timestamp, fullName, emailAddress, 0.0, 0.0, false)
      ensures pendingEvents == []
      ensures history == [Opened(id, version, timestamp, GetTopic(AccountType), fullName, emailAddress)]
      ensures Valid()
    {
      ghost var e := Opened(id, version, timestamp, GetTopic(AccountType), fullName, emailAddress);
      AccountCreationReplays(e);
      this.id := id;
      this.version := version;
      this.timestamp := timestamp;
      this.fullName := fullName;
      this.emailAddress := emailAddress;
      this.balance := 0.0;
      this.overdraftLimit := 0.0;
      this.isClosed := false;
      this.pendingEvents := [];
      this.history := [e];
    }

    /**
     * `_create_` on the class `cls`: build the creation event with version 1
     * and `cls`'s topic, build the aggregate from it, stage the event.
     */
    static method Create(cls: TypeRef, id: Uuid, now: Timestamp, fullName: string, emailAddress: string)
      returns (r: Result<Account, Error>)
      ensures var e := Opened(id, 1, now, GetTopic(cls), fullName, emailAddress);
              && (r.Ok? <==> Construct(Runtime, e).Ok?)
              && (r.Err? ==> r == Err(Construct(Runtime, e).error))
              && (r.Ok? ==>
                    && fresh(r.value) && r.value.Valid()
                    && r.value.State() == AccountState(id, 1, now, fullName, emailAddress, 0.0, 0.0, false)
                    && r.value.pendingEvents == [e]
                    && r.value.history == [e]
                    && r.value.Committed() == [])
    {
      var e := Opened(id, 1, now, GetTopic(cls), fullName, emailAddress);
      r := Mutate(e, null);
      if r.Ok? {
        var a := r.value;
        a.pendingEvents := a.pendingEvents + [e];
      }
    }

    /** `Account.open`: creation always succeeds, at version 1 with a zero balance. */
    static method Open(fullName: string, emailAddress: string, id: Uuid, now: Timestamp) returns (a: Account)
      ensures fresh(a) && a.Valid()
      ensures a.State() == AccountState(id, 1, now, fullName, emailAddress, 0.0, 0.0, false)
      ensures a.pendingEvents == [Opened(id, 1, now, GetTopic(AccountType), fullName, emailAddress)]
      ensures a.history == a.pendingEvents && a.Committed() == []
    {
      AccountTopicResolves();
      var r := Create(AccountType, id, now, fullName, emailAddress);
      if r.Err? {
        assert false;
      }
      a := r.value;
    }

    /**
     * `_trigger_`: build the event at the next version for this aggregate,
     * mutate this object with it (which cannot fail the version check), and
     * append it to the pending buffer.
     */
    method Trigger(change: Change, now: Timestamp)
      requires Valid()
      modifies this
      ensures Valid()
      ensures var e := Triggered(old(id), old(version) + 1, now, change);
              && State() == Apply(change, old(State()).(version := old(version) + 1, timestamp := now))
              && pendingEvents == old(pendingEvents) + [e]
              && history == old(history) + [e]
    {
      var e := Triggered(id, version + 1, now, change);
      var r := Mutate(e, this);
      if r.Err? {
        assert false;
      }
      pendingEvents := pendingEvents + [e];
    }

    /**
     * `_collect_`: pop every pending event from the left into a list. The
     * collected events extend the committed ones, and replaying all of them
     * rebuilds the object.
     */
    method Collect() returns (collected: seq<Event>)
      requires Valid()
      modifies this`pendingEvents
      ensures Valid()
      ensures collected == old(pendingEvents)
      ensures pendingEvents == []
      ensures Committed() == old(Committed()) + collected
      ensures Replay(Runtime, None, old(Committed()) + collected) == Ok(Some(State()))
    {
      collected := [];
      while pendingEvents != []
        invariant collected + pendingEvents == old(pendingEvents)
        invariant history == old(Committed()) + collected + pendingEvents
        decreases |pendingEvents|
      {
        var next := pendingEvents[0];
        collected := collected + [next];
        pendingEvents := pendingEvents[1..];
      }
    }

    /** `append_transaction`: refuse on a closed account, then on insufficient funds, else trigger. */
    method AppendTransaction(amount: Money, now: Timestamp) returns (r: Outcome<Error>)
      requires Valid()
      modifies this
      ensures Valid()
      ensures old(isClosed) ==> r == Fail(AccountClosedError)
      ensures !old(isClosed) && old(balance) + amount < -old(overdraftLimit) ==>
                r == Fail(InsufficientFundsError(old(id)))
      ensures !old(isClosed) && old(balance) + amount >= -old(overdraftLimit) ==> r == Pass
      ensures r.Fail? ==>
                State() == old(State()) && pendingEvents == old(pendingEvents) && history == old(history)
      ensures r.Pass? ==>
                var e := Triggered(old(id), old(version) + 1, now, TransactionAppended(amount));
                && !old(isClosed)
                && State() == old(State()).(version := old(version) + 1, timestamp := now,
                                            balance := old(balance) + amount)
                && balance >= -overdraftLimit
                && pendingEvents == old(pendingEvents) + [e]
                && history == old(history) + [e]
    {
      r := CheckAccountIsNotClosed(State());
      if r.Fail? {
        return;
      }
      r := CheckHasSufficientFunds(State(), amount);
      if r.Fail? {
        return;
      }
      Trigger(TransactionAppended(amount), now);
    }

    /** `set_overdraft_limit`: the limit must be non-negative and the account open. */
    method SetOverdraftLimit(limit: Money, now: Timestamp) returns (r: Outcome<Error>)
      requires Valid()
      modifies this
      ensures Valid()
      ensures limit < 0.0 ==> r == Fail(AssertionError)
      ensures limit >= 0.0 && old(isClosed) ==> r == Fail(AccountClosedError)
      ensures limit >= 0.0 && !old(isClosed) ==> r == Pass
      ensures r.Fail? ==>
                State() == old(State()) && pendingEvents == old(pendingEvents) && history == old(history)
      ensures r.Pass? ==>
                var e := Triggered(old(id), old(version) + 1, now, OverdraftLimitSet(limit));
                && limit >= 0.0 && !old(isClosed)
                && State() == old(State()).(version := old(version) + 1, timestamp := now,
                                            overdraftLimit := limit)
                && pendingEvents == old(pendingEvents) + [e]
                && history == old(history) + [e]
    {
      if limit < 0.0 {
        return Fail(AssertionError);
      }
      r := CheckAccountIsNotClosed(State());
      if r.Fail? {
        return;
      }
      Trigger(OverdraftLimitSet(limit), now);
    }

    /** The `apply` overrides of the three non-creation event kinds, on this object. */
    method ApplyChange(change: Change)
      modifies this`balance, this`overdraftLimit, this`isClosed
      ensures State() == Apply(change, old(State()))
    {
      match change {
        case TransactionAppended(amount) =>
          balance := balance + amount;
        case OverdraftLimitSet(limit) =>
          overdraftLimit := limit;
        case Closed =>
          isClosed := true;
      }
    }

    /** `close`: always triggers a Closed event, also on an already closed account. */
    method Close(now: Timestamp)
      requires Valid()
      modifies this
      ensures Valid()
      ensures var e := Triggered(old(id), old(version) + 1, now, Closed);
              && State() == old(State()).(version := old(version) + 1, timestamp := now, isClosed := true)
              && pendingEvents == old(pendingEvents) + [e]
              && history == old(history) + [e]
    {
      Trigger(Closed, now);
    }
  }

  /** The state of a possibly absent target, as `Mutated` takes it. */
  function StateOf(obj: Account?): (r: Option<AccountState>)
    reads obj
  {
    if obj == null then None else Some(obj.State())
  }

  /**
   * `Created.mutate`: the target is ignored; the topic is resolved and a
   * fresh Account is built from the event, whose version it copies.
   */
  method CreatedMutate(e: Event) returns (r: Result<Account, Error>)
    requires e.Opened?
    ensures (r.Ok? <==> Construct(Runtime, e).Ok?) && (r.Err? ==> r.error == Construct(Runtime, e).error)
    ensures r.Ok? ==>
              && fresh(r.value) && r.value.Valid() && r.value.State() == Construct(Runtime, e).value
              && r.value.pendingEvents == [] && r.value.history == [e]
  {
    var built := Construct(Runtime, e);
    if built.Err? {
      return Err(built.error);
    }
    var a := new Account(e.aggregateId, e.aggregateVersion, e.timestamp, e.fullName, e.emailAddress);
    ReplayCreation(Runtime, e);
    assert a.State() == built.value;
    a.history := [e];
    assert a.Folded();
    assert a.Committed() == [e];
    return Ok(a);
  }

  /**
   * `event.mutate(obj)` on objects. A creation event builds a fresh Account
   * and leaves `obj` alone; any other event either fails (absent target,
   * version mismatch) leaving `obj` untouched, or sets the version and
   * timestamp, runs the kind's `apply` on `obj` in place, and returns `obj`.
   */
  method Mutate(e: Event, obj: Account?) returns (r: Result<Account, Error>)
    requires obj != null ==> obj.Folded()
    modifies obj
    ensures var spec := Mutated(Runtime, e, old(StateOf(obj)));
            && (r.Ok? <==> spec.Ok?)
            && (r.Err? ==> r.error == spec.error)
            && (r.Ok? ==> r.value.Folded() && r.value.State() == spec.value)
    ensures r.Err? && obj != null ==> unchanged(obj)
    ensures e.Opened? && obj != null ==> unchanged(obj)
    ensures e.Opened? && r.Ok? ==>
              fresh(r.value) && r.value.pendingEvents == [] && r.value.history == [e]
    ensures e.Triggered? && r.Ok? ==>
              && obj != null && r.value == obj
              && obj.pendingEvents == old(obj.pendingEvents)
              && obj.history == old(obj.history) + [e]
    ensures r.Ok? && r.value.pendingEvents == [] ==> r.value.Valid()
  {
    if e.Opened? {
      r := CreatedMutate(e);
      return;
    }
    if obj == null {
      return Err(NotAggregateError);
    }
    var nextVersion := obj.version + 1;
    if e.aggregateVersion != nextVersion {
      return Err(VersionError(e.aggregateVersion, nextVersion));
    }
    assert (obj.history + [e])[..|obj.history|] == obj.history;
    obj.version := nextVersion;
    obj.timestamp := e.timestamp;
    obj.ApplyChange(e.change);
    obj.history := obj.history + [e];
    return Ok(obj);
  }
}
