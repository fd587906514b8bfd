/**
 * The script at the end of the module: open an account, append and
 * withdraw, hit both business errors, raise the overdraft limit, close,
 * and collect the pending events.
 */
module Scenario {
  import opened Results
  import opened Topics
  import opened Domain
  import opened Aggregates

  /** The creation event of the script's account. */
  function OpenedEvents(id: Uuid, clock: Timestamp): (r: seq<Event>) {
    [Opened(id, 1, clock, GetTopic(AccountType), "Migo", "test@mail.com")]
  }

  /** Deposits of 10 and 10, then a withdrawal of 15. */
  function TransactEvents(id: Uuid, clock: Timestamp): (r: seq<Event>) {
    [ Triggered(id, 2, clock + 1, TransactionAppended(10.0)),
      Triggered(id, 3, clock + 2, TransactionAppended(10.0)),
      Triggered(id, 4, clock + 3, TransactionAppended(-15.0)) ]
  }

  /** The refused withdrawal leaves nothing: the limit is raised and the withdrawal retried. */
  function OverdrawEvents(id: Uuid, clock: Timestamp): (r: seq<Event>) {
    [ Triggered(id, 5, clock + 5, OverdraftLimitSet(100.0)),
      Triggered(id, 6, clock + 6, TransactionAppended(-15.0)) ]
  }

  /** The closing event; the refused withdrawal after it leaves nothing. */
  function CloseEvents(id: Uuid, clock: Timestamp): (r: seq<Event>) {
    [Triggered(id, 7, clock + 7, Closed)]
  }

  /** The seven events the script leaves pending, in order. */
  function ExpectedEvents(id: Uuid, clock: Timestamp): (r: seq<Event>) {
    OpenedEvents(id, clock) + TransactEvents(id, clock) + OverdrawEvents(id, clock) + CloseEvents(id, clock)
  }

  /** Two deposits of 10 and a withdrawal of 15 on the fresh account all succeed. */
  method Transact(account: Account, id: Uuid, clock: Timestamp)
    requires account.Valid()
    requires account.State() == AccountState(id, 1, clock, "Migo", "test@mail.com", 0.0, 0.0, false)
    modifies account
    ensures account.Valid()
    ensures account.State() == AccountState(id, 4, clock + 3, "Migo", "test@mail.com", 5.0, 0.0, false)
    ensures account.pendingEvents == old(account.pendingEvents) + TransactEvents(id, clock)
    ensures account.history == old(account.history) + TransactEvents(id, clock)
  {
    ghost var events := TransactEvents(id, clock);
    var r := account.AppendTransaction(10.0, clock + 1);
    assert r == Pass && account.balance == 10.0;
    assert account.pendingEvents == old(account.pendingEvents) + events[..1];
    assert account.history == old(account.history) + events[..1];
    r := account.AppendTransaction(10.0, clock + 2);
    assert r == Pass && account.balance == 20.0;
    assert account.pendingEvents == old(account.pendingEvents) + events[..2];
    assert account.history == old(account.history) + events[..2];
    r := account.AppendTransaction(-15.0, clock + 3);
    assert r == Pass && account.balance == 5.0;
    assert events == events[..2] + [events[2]];
  }

  /**
   * A withdrawal below the zero overdraft floor is refused; after the limit
   * is raised to 100 the same withdrawal goes through.
   */
  method RefuseThenOverdraw(account: Account, id: Uuid, clock: Timestamp)
    requires account.Valid()
    requires account.State() == AccountState(id, 4, clock + 3, "Migo", "test@mail.com", 5.0, 0.0, false)
    modifies account
    ensures account.Valid()
    ensures account.State() == AccountState(id, 6, clock + 6, "Migo", "test@mail.com", -10.0, 100.0, false)
    ensures account.pendingEvents == old(account.pendingEvents) + OverdrawEvents(id, clock)
    ensures account.history == old(account.history) + OverdrawEvents(id, clock)
  {
    var r := account.AppendTransaction(-15.0, clock + 4);
    assert r == Fail(InsufficientFundsError(id)) && account.balance == 5.0;
    r := account.SetOverdraftLimit(100.0, clock + 5);
    assert r == Pass;
    r := account.AppendTransaction(-15.0, clock + 6);
    assert r == Pass && account.balance == -10.0;
  }

  /** Close the account; a further withdrawal is refused. */
  method CloseThenRefuse(account: Account, id: Uuid, clock: Timestamp)
    requires account.Valid()
    requires account.State() == AccountState(id, 6, clock + 6, "Migo", "test@mail.com", -10.0, 100.0, false)
    modifies account
    ensures account.Valid()
    ensures account.State() == AccountState(id, 7, clock + 7, "Migo", "test@mail.com", -10.0, 100.0, true)
    ensures account.pendingEvents == old(account.pendingEvents) + CloseEvents(id, clock)
    ensures account.history == old(account.history) + CloseEvents(id, clock)
  {
    account.Close(clock + 7);
    var r := account.AppendTransaction(-15.0, clock + 8);
    assert r == Fail(AccountClosedError) && account.balance == -10.0;
  }

  /**
   * `id` stands for the fresh `uuid4()` and `clock` for the first
   * `datetime.now()`; each later call is stamped one tick later. The two
   * refused operations leave no event and no trace in the state.
   */
  method RunScenario(id: Uuid, clock: Timestamp) returns (pending: seq<Event>, final: AccountState)
    ensures |pending| == 7
    ensures pending == ExpectedEvents(id, clock)
    ensures final == FinalState(id, clock)
  {
    var account := Account.Open("Migo", "test@mail.com", id, clock);
    assert account.fullName == "Migo" && account.emailAddress == "test@mail.com";
    assert account.balance == 0.0;
    Transact(account, id, clock);
    RefuseThenOverdraw(account, id, clock);
    CloseThenRefuse(account, id, clock);
    pending := account.Collect();
    var again := account.Collect();
    assert again == [];
    final := account.State();
  }

  /** The account the script ends with. */
  function FinalState(id: Uuid, clock: Timestamp): (r: AccountState) {
    AccountState(id, 7, clock + 7, "Migo", "test@mail.com", -10.0, 100.0, true)
  }

  /** The account right after `open`. */
  function OpenedState(id: Uuid, clock: Timestamp): (r: AccountState) {
    AccountState(id, 1, clock, "Migo", "test@mail.com", 0.0, 0.0, false)
  }

  /** The account after the two deposits and the first withdrawal. */
  function TransactedState(id: Uuid, clock: Timestamp): (r: AccountState) {
    AccountState(id, 4, clock + 3, "Migo", "test@mail.com", 5.0, 0.0, false)
  }

  /** The account after the limit is raised and the withdrawal retried. */
  function OverdrawnState(id: Uuid, clock: Timestamp): (r: AccountState) {
    AccountState(id, 6, clock + 6, "Migo", "test@mail.com", -10.0, 100.0, false)
  }

  /** Replaying the creation event resolves the Account topic and opens the account. */
  lemma OpenedReplays(id: Uuid, clock: Timestamp)
    ensures Replay(Runtime, None, OpenedEvents(id, clock)) == Ok(Some(OpenedState(id, clock)))
  {
    AccountTopicResolves();
    assert OpenedEvents(id, clock)[..0] == [];
  }

  /** Replaying the three transactions takes the balance from 0 to 5. */
  lemma TransactReplays(id: Uuid, clock: Timestamp)
    ensures Replay(Runtime, Some(OpenedState(id, clock)), TransactEvents(id, clock)) ==
              Ok(Some(TransactedState(id, clock)))
  {
    var t := TransactEvents(id, clock);
    var start := OpenedState(id, clock);
    var deposited := start.(version := 2, timestamp := clock + 1, balance := 10.0);
    var depositedTwice := start.(version := 3, timestamp := clock + 2, balance := 20.0);
    assert t == [t[0]] + ([t[1]] + [t[2]]);
    ReplayFront(Runtime, Some(start), t[0], [t[1]] + [t[2]]);
    ReplayFront(Runtime, Some(deposited), t[1], [t[2]]);
    ReplayFront(Runtime, Some(depositedTwice), t[2], []);
    assert [t[2]] == [t[2]] + [];
  }

  /** Replaying the new limit and the retried withdrawal takes the balance to -10. */
  lemma OverdrawReplays(id: Uuid, clock: Timestamp)
    ensures Replay(Runtime, Some(TransactedState(id, clock)), OverdrawEvents(id, clock)) ==
              Ok(Some(OverdrawnState(id, clock)))
  {
    var v := OverdrawEvents(id, clock);
    var start := TransactedState(id, clock);
    var raised := start.(version := 5, timestamp := clock + 5, overdraftLimit := 100.0);
    assert v == [v[0]] + [v[1]];
    ReplayFront(Runtime, Some(start), v[0], [v[1]]);
    ReplayFront(Runtime, Some(raised), v[1], []);
    assert [v[1]] == [v[1]] + [];
  }

  /** Replaying the Closed event closes the account. */
  lemma CloseReplays(id: Uuid, clock: Timestamp)
    ensures Replay(Runtime, Some(OverdrawnState(id, clock)), CloseEvents(id, clock)) ==
              Ok(Some(FinalState(id, clock)))
  {
    assert CloseEvents(id, clock)[..0] == [];
  }

  /**
   * Handing the collected events to a store and replaying them rebuilds the
   * account the script ends with.
   */
  lemma ScenarioReplays(id: Uuid, clock: Timestamp)
    ensures Replay(Runtime, None, ExpectedEvents(id, clock)) == Ok(Some(FinalState(id, clock)))
  {
    var o, t, v, c := OpenedEvents(id, clock), TransactEvents(id, clock), OverdrawEvents(id, clock), CloseEvents(id, clock);
    OpenedReplays(id, clock);
    TransactReplays(id, clock);
    OverdrawReplays(id, clock);
    CloseReplays(id, clock);
    ReplayAppend(Runtime, None, o, t);
    ReplayAppend(Runtime, None, o + t, v);
    ReplayAppend(Runtime, None, o + t + v, c);
  }
}
