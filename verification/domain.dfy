/**
 * The event model and the pure meaning of folding one event onto an
 * aggregate: the version check, the creation path through the topic
 * registry, the per-kind `apply`, and the replay of a whole history.
 * The in-place object lives in module Aggregates and is specified by these
 * functions.
 */
module Domain {
  import opened Results
  import opened Topics

  /** `uuid4()` values; the generator is a parameter of the operations. */
  type Uuid = nat
  /** `datetime.now()` values; the clock is a parameter of the operations. */
  type Timestamp = int
  /** `Decimal` amounts, exact. */
  type Money = real

  /** The exceptions the kernel and the Account example raise. */
  datatype Error =
    | NotAggregateError                      // mutate on something that is not an aggregate
    | VersionError(actual: int, expected: int)
    | ResolutionError(cause: ResolveError)   // the creation event's topic does not resolve
    | NotConstructible(topic: string)        // the topic resolves to something other than Account
    | AccountClosedError
    | InsufficientFundsError(accountId: Uuid)
    | AssertionError                         // set_overdraft_limit's assert on a negative limit

  /** The business effect of the non-creation event kinds of Account. */
  datatype Change =
    | TransactionAppended(amount: Money)
    | OverdraftLimitSet(overdraftLimit: Money)
    | Closed

  /**
   * An immutable domain event. `Opened` is the Created kind (it carries the
   * topic of the class to build); every other kind is a `Triggered` event.
   */
  datatype Event =
    | Opened(aggregateId: Uuid, aggregateVersion: int, timestamp: Timestamp,
             aggregateTopic: string, fullName: string, emailAddress: string)
    | Triggered(aggregateId: Uuid, aggregateVersion: int, timestamp: Timestamp, change: Change)

  /** Every field of an Account except its pending-event buffer. */
  datatype AccountState = AccountState(
    id: Uuid,
    version: int,
    timestamp: Timestamp,
    fullName: string,
    emailAddress: string,
    balance: Money,
    overdraftLimit: Money,
    isClosed: bool)

  /** The class `Account`, defined in the program's main module. */
  const AccountType: TypeRef := TypeRef("__main__", "Account")
  /** The abstract base class `Aggregate`, in the same module. */
  const AggregateType: TypeRef := TypeRef("__main__", "Aggregate")

  /**
   * The registry restricted to the two aggregate classes: module `__main__`
   * with `Account` and `Aggregate`. Other names of that module and other
   * modules are not in it.
   */
  const Runtime: Registry := Registry(
    map["__main__" := ModuleObject("__main__")],
    map[(ModuleObject("__main__"), "Account") := ClassObject(AccountType),
        (ModuleObject("__main__"), "Aggregate") := ClassObject(AggregateType)])

  /** The Account class can be found from its own topic. */
  lemma AccountTopicResolves()
    ensures ResolveTopic(Runtime, GetTopic(AccountType)) == Ok(ClassObject(AccountType))
  {
    assert Partition("Account", '.') == ("Account", "", "");
    assert Registered(Runtime, AccountType);
    TopicRoundTrip(Runtime, AccountType);
  }

  /** The per-kind `apply` hook: it touches business fields only. */
  function Apply(change: Change, s: AccountState): (r: AccountState)
    ensures r.id == s.id && r.version == s.version && r.timestamp == s.timestamp
    ensures r.fullName == s.fullName && r.emailAddress == s.emailAddress
  {
    match change
    case TransactionAppended(amount) => s.(balance := s.balance + amount)
    case OverdraftLimitSet(limit) => s.(overdraftLimit := limit)
    case Closed => s.(isClosed := true)
  }

  /**
   * `Created.mutate`: resolve the topic and build a new Account from the
   * event's fields; the version is copied from the event, not checked.
   */
  function Construct(reg: Registry, e: Event): (r: Result<AccountState, Error>)
    requires e.Opened?
    ensures r.Ok? <==> ResolveTopic(reg, e.aggregateTopic) == Ok(ClassObject(AccountType))
    ensures r.Ok? ==> r.value == AccountState(e.aggregateId, e.aggregateVersion, e.timestamp,
                                              e.fullName, e.emailAddress, 0.0, 0.0, false)
    ensures ResolveTopic(reg, e.aggregateTopic).Err? ==>
              r == Err(ResolutionError(ResolveTopic(reg, e.aggregateTopic).error))
  {
    match ResolveTopic(reg, e.aggregateTopic)
    case Err(cause) => Err(ResolutionError(cause))
    case Ok(obj) =>
      if obj == ClassObject(AccountType) then
        Ok(AccountState(e.aggregateId, e.aggregateVersion, e.timestamp,
                        e.fullName, e.emailAddress, 0.0, 0.0, false))
      else Err(NotConstructible(e.aggregateTopic))
  }

  /**
   * `event.mutate(target)`, with `None` as the absent target. A creation
   * event ignores the target; any other event needs a target whose version
   * is exactly one below the event's.
   */
  function Mutated(reg: Registry, e: Event, target: Option<AccountState>): (r: Result<AccountState, Error>)
    ensures e.Opened? ==> r == Construct(reg, e)
    ensures e.Triggered? && target.None? ==> r == Err(NotAggregateError)
    ensures e.Triggered? && target.Some? ==>
              (r.Ok? <==> e.aggregateVersion == target.value.version + 1)
    ensures e.Triggered? && target.Some? && r.Err? ==>
              r.error == VersionError(e.aggregateVersion, target.value.version + 1)
    ensures e.Triggered? && r.Ok? ==>
              && r.value.version == target.value.version + 1
              && r.value.timestamp == e.timestamp
              && r.value.id == target.value.id
              && r.value == Apply(e.change, target.value.(version := e.aggregateVersion, timestamp := e.timestamp))
  {
    match e
    case Opened(_, _, _, _, _, _) => Construct(reg, e)
    case Triggered(_, version, timestamp, change) =>
      if target.None? then Err(NotAggregateError)
      else if version != target.value.version + 1 then
        Err(VersionError(version, target.value.version + 1))
      else Ok(Apply(change, target.value.(version := version, timestamp := timestamp)))
  }

  /**
   * Replaying a history: `mutate` each event in order onto the result of
   * the previous one, starting from `target`. Defined by the last event, so
   * that one more event is one more `Mutated` step.
   */
  function Replay(reg: Registry, target: Option<AccountState>, events: seq<Event>): (r: Result<Option<AccountState>, Error>)
    decreases |events|
  {
    if events == [] then Ok(target)
    else
      match Replay(reg, target, events[..|events| - 1])
      case Err(err) => Err(err)
      case Ok(t) =>
        match Mutated(reg, events[|events| - 1], t)
        case Err(err) => Err(err)
        case Ok(s) => Ok(Some(s))
  }

  /** A history of one creation event replays to the aggregate that event constructs. */
  lemma ReplayCreation(reg: Registry, e: Event)
    requires e.Opened?
    ensures Replay(reg, None, [e]) == match Construct(reg, e)
                                      case Ok(s) => Ok(Some(s))
                                      case Err(err) => Err(err)
  {
  }

  /** A history of one Account creation event replays to a fresh, open account with nothing in it. */
  lemma AccountCreationReplays(e: Event)
    requires e.Opened? && e.aggregateTopic == GetTopic(AccountType)
    ensures Replay(Runtime, None, [e]) ==
              Ok(Some(AccountState(e.aggregateId, e.aggregateVersion, e.timestamp,
                                   e.fullName, e.emailAddress, 0.0, 0.0, false)))
  {
    AccountTopicResolves();
    ReplayCreation(Runtime, e);
  }

  /** Replaying from the front: the first event is mutated first, the rest continue from it. */
  lemma {:induction false} ReplayFront(reg: Registry, target: Option<AccountState>, e: Event, events: seq<Event>)
    ensures Replay(reg, target, [e] + events) ==
              match Mutated(reg, e, target)
              case Err(err) => Err(err)
              case Ok(s) => Replay(reg, Some(s), events)
    decreases |events|
  {
    if events == [] {
      assert ([e] + events)[..0] == [];
    } else {
      var init := events[..|events| - 1];
      assert ([e] + events)[..|events|] == [e] + init;
      assert ([e] + events)[|events|] == events[|events| - 1];
      ReplayFront(reg, target, e, init);
    }
  }

  /** Replaying two histories one after the other is replaying their concatenation. */
  lemma {:induction false} ReplayAppend(reg: Registry, target: Option<AccountState>, first: seq<Event>, second: seq<Event>)
    ensures Replay(reg, target, first + second) ==
              match Replay(reg, target, first)
              case Err(err) => Err(err)
              case Ok(t) => Replay(reg, t, second)
    decreases |second|
  {
    if second == [] {
      assert first + second == first;
    } else {
      var init := second[..|second| - 1];
      var all := first + second;
      assert all[..|all| - 1] == first + init;
      assert all[|all| - 1] == second[|second| - 1];
      ReplayAppend(reg, target, first, init);
    }
  }

  /** The events carry the consecutive versions following `version`. */
  ghost predicate Gapless(version: int, events: seq<Event>) {
    forall i :: 0 <= i < |events| ==> events[i].aggregateVersion == version + 1 + i
  }

  /**
   * Optimistic concurrency over a whole run of non-creation events: the
   * replay succeeds exactly when the versions continue the target's without
   * gap or repetition, and then the version has grown by one per event and
   * the identity is untouched.
   */
  lemma {:induction false} ReplayTriggered(reg: Registry, t: AccountState, events: seq<Event>)
    requires forall i :: 0 <= i < |events| ==> events[i].Triggered?
    ensures Replay(reg, Some(t), events).Ok? <==> Gapless(t.version, events)
    ensures Replay(reg, Some(t), events).Ok? ==>
              && Replay(reg, Some(t), events).value.Some?
              && Replay(reg, Some(t), events).value.value.version == t.version + |events|
              && Replay(reg, Some(t), events).value.value.id == t.id
    decreases |events|
  {
    if events != [] {
      var n := |events| - 1;
      var init := events[..n];
      ReplayTriggered(reg, t, init);
      assert Gapless(t.version, events) <==>
               Gapless(t.version, init) && events[n].aggregateVersion == t.version + 1 + n by {
        if Gapless(t.version, init) && events[n].aggregateVersion == t.version + 1 + n {
          forall i | 0 <= i < |events| ensures events[i].aggregateVersion == t.version + 1 + i {
            if i < n { assert events[i] == init[i]; }
          }
        }
        if Gapless(t.version, events) {
          forall i | 0 <= i < |init| ensures init[i].aggregateVersion == t.version + 1 + i {
            assert init[i] == events[i];
          }
        }
      }
    }
  }

  /**
   * A history made of one creation event followed by non-creation events
   * replays successfully exactly when its versions are gapless from the
   * creation event's; the aggregate then has the creation event's identity
   * and a version that counts the events (so `|events|` when it starts at 1).
   */
  lemma {:induction false} HistoryVersions(reg: Registry, events: seq<Event>)
    requires events != [] && events[0].Opened?
    requires Construct(reg, events[0]).Ok?
    requires forall i :: 1 <= i < |events| ==> events[i].Triggered?
    ensures Replay(reg, None, events).Ok? <==> Gapless(events[0].aggregateVersion - 1, events)
    ensures Replay(reg, None, events).Ok? ==>
              && Replay(reg, None, events).value.Some?
              && Replay(reg, None, events).value.value.id == events[0].aggregateId
              && Replay(reg, None, events).value.value.version == events[0].aggregateVersion + |events| - 1
  {
    var s := Construct(reg, events[0]).value;
    var rest := events[1..];
    assert events == [events[0]] + rest;
    assert forall i :: 0 <= i < |rest| ==> rest[i] == events[i + 1];
    ReplayFront(reg, None, events[0], rest);
    ReplayTriggered(reg, s, rest);
    assert Gapless(events[0].aggregateVersion - 1, events) <==> Gapless(s.version, rest) by {
      if Gapless(s.version, rest) {
        forall i | 0 <= i < |events| ensures events[i].aggregateVersion == s.version + i {
          if i > 0 { assert events[i] == rest[i - 1]; }
        }
      }
    }
  }

  /**
   * `mutate` checks the version only: an event stamped with another
   * aggregate's id but the right version is applied all the same, and the
   * target keeps its own id.
   */
  lemma MutateIgnoresAggregateId(reg: Registry, s: AccountState, other: Uuid, now: Timestamp, change: Change)
    requires other != s.id
    ensures Mutated(reg, Triggered(other, s.version + 1, now, change), Some(s)).Ok?
    ensures Mutated(reg, Triggered(other, s.version + 1, now, change), Some(s)).value.id == s.id
  {
  }

  /** `check_account_is_not_closed`. */
  function CheckAccountIsNotClosed(s: AccountState): (r: Outcome<Error>)
    ensures r.Pass? <==> !s.isClosed
    ensures r.Fail? ==> r.error == AccountClosedError
  {
    if s.isClosed then Fail(AccountClosedError) else Pass
  }

  /** `check_has_sufficient_funds`: the balance after `amount` may not go below the overdraft floor. */
  function CheckHasSufficientFunds(s: AccountState, amount: Money): (r: Outcome<Error>)
    ensures r.Pass? <==> s.balance + amount >= -s.overdraftLimit
    ensures r.Fail? ==> r.error == InsufficientFundsError(s.id)
  {
    if s.balance + amount < -s.overdraftLimit then Fail(InsufficientFundsError(s.id)) else Pass
  }
}
