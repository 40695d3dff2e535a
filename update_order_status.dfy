/**
 * `UpdateOrderStatusUseCase` (order/application/usecases/command/update_order_status_use_case.py):
 * load the order, apply the guarded transition in place, store it back.
 */
module UpdateOrderStatus {
  import opened Wrappers
  import opened Errors
  import opened Ids
  import opened Orders
  import opened OrderMapping
  import opened OrderRepositories

  datatype UpdateOrderStatusCommand = UpdateOrderStatusCommand(orderId: Uuid, status: OrderStatus)

  /**
   * `execute`: an unknown id or an unloadable row raises and nothing is written;
   * an illegal transition raises and `update` is never reached; a legal one stores
   * the loaded order with only its status replaced. Other orders are untouched.
   */
  method Execute(repository: OrderRepository, cmd: UpdateOrderStatusCommand) returns (r: Outcome)
    requires repository.Valid()
    modifies repository
    ensures repository.Valid()
    ensures cmd.orderId !in old(repository.rows) ==>
              r == Fail(Raise(ValueError, NotFoundMessage(cmd.orderId))) && repository.rows == old(repository.rows)
    ensures cmd.orderId in old(repository.rows) && ToDomain(old(repository.rows)[cmd.orderId]).Err? ==>
              && r == Fail(ToDomain(old(repository.rows)[cmd.orderId]).error)
              && repository.rows == old(repository.rows)
    ensures cmd.orderId in old(repository.rows) && ToDomain(old(repository.rows)[cmd.orderId]).Ok? ==>
              var loaded := ToDomain(old(repository.rows)[cmd.orderId]).value;
              && (r.Pass? <==> CanTransition(loaded.status, cmd.status))
              && (r.Fail? ==> r.error.cls == InvariantViolationError && repository.rows == old(repository.rows))
              && (r.Pass? ==> repository.rows ==
                                old(repository.rows)[cmd.orderId := ToPersistence(loaded.(status := cmd.status))])
  {
    var loaded := repository.GetById(cmd.orderId);
    if loaded.Err? {
      return Fail(loaded.error);
    }
    var order := loaded.value;
    ghost var before := order.Data();
    assert before == ToDomain(old(repository.rows)[cmd.orderId]).value;
    var transitioned := order.UpdateStatus(cmd.status);
    if transitioned.Fail? {
      return transitioned;
    }
    assert order.Data() == before.(status := cmd.status);
    repository.Update(order);
    return Pass;
  }

  /**
   * For a row as `to_persistence` writes it, a successful update changes the
   * stored status and nothing else in the row.
   */
  lemma {:induction false} OnlyStatusChanges(row: OrderRow, status: OrderStatus)
    requires ToDomain(row).Ok?
    requires row.deliveryAddress != Some("")
    requires forall i :: 0 <= i < |row.items| ==> row.items[i].orderId == row.orderId
    ensures ToPersistence(ToDomain(row).value.(status := status)) == row.(status := status)
  {
    RowDomainRow(row);
  }

  /** `p` is a chain of legal transitions leading from `from` to `to`. */
  predicate IsPath(from: OrderStatus, p: seq<OrderStatus>, to: OrderStatus)
    decreases |p|
  {
    if p == [] then from == to else CanTransition(from, p[0]) && IsPath(p[0], p[1..], to)
  }

  /**
   * The status after a series of `execute` calls on one order, and the commands
   * that took effect: a rejected command leaves the status as it was.
   */
  function Replay(status: OrderStatus, cmds: seq<OrderStatus>): (r: (OrderStatus, seq<OrderStatus>))
    ensures IsPath(status, r.1, r.0)
    ensures |r.1| <= |cmds|
    decreases |cmds|
  {
    if cmds == [] then (status, [])
    else if CanTransition(status, cmds[0]) then
      var rest := Replay(cmds[0], cmds[1..]);
      (rest.0, [cmds[0]] + rest.1)
    else Replay(status, cmds[1..])
  }

  /** The only chain of legal transitions from `CREATED` to `DELIVERED`. */
  lemma {:induction false} OnlyPathToDelivered(p: seq<OrderStatus>)
    ensures IsPath(Created, p, Delivered) <==> p == [Preparing, Ready, Delivered]
  {
    if p == [Preparing, Ready, Delivered] {
      assert p[1..] == [Ready, Delivered] && p[1..][1..] == [Delivered] && p[1..][1..][1..] == [];
      assert IsPath(Ready, [Delivered], Delivered);
    }
    if IsPath(Created, p, Delivered) {
      var p1 := p[1..];
      assert p[0] == Preparing && IsPath(Preparing, p1, Delivered);
      var p2 := p1[1..];
      assert p1[0] == Ready && IsPath(Ready, p2, Delivered);
      var p3 := p2[1..];
      assert p2 != [] && IsPath(p2[0], p3, Delivered);
      assert p2[0] == Delivered;
      assert p3 == [];
      assert p == [p[0]] + [p1[0]] + [p2[0]];
    }
  }

  /**
   * Starting from `CREATED`, a series of commands ends in `DELIVERED` exactly when
   * the commands that took effect were `PREPARING`, `READY`, `DELIVERED`.
   */
  lemma {:induction false} DeliveredOnlyViaChain(cmds: seq<OrderStatus>)
    ensures Replay(Created, cmds).0 == Delivered <==> Replay(Created, cmds).1 == [Preparing, Ready, Delivered]
  {
    var r := Replay(Created, cmds);
    OnlyPathToDelivered(r.1);
    if r.1 == [Preparing, Ready, Delivered] {
      PathEndIsUnique(Created, r.1, r.0, Delivered);
    }
  }

  /** A chain of transitions determines where it ends. */
  lemma {:induction false} PathEndIsUnique(from: OrderStatus, p: seq<OrderStatus>, a: OrderStatus, b: OrderStatus)
    requires IsPath(from, p, a) && IsPath(from, p, b)
    ensures a == b
    decreases |p|
  {
    if p != [] {
      PathEndIsUnique(p[0], p[1..], a, b);
    }
  }

  /** When every command takes effect, the only series from `CREATED` to `DELIVERED` is the full chain. */
  lemma {:induction false} AllAcceptedChain(cmds: seq<OrderStatus>)
    requires Replay(Created, cmds).1 == cmds
    ensures Replay(Created, cmds).0 == Delivered <==> cmds == [Preparing, Ready, Delivered]
  {
    DeliveredOnlyViaChain(cmds);
  }

  /**
   * After a successful update the stored row loads back as the same order with
   * the new status, and that status cannot follow itself: the same command,
   * repeated, is rejected.
   */
  lemma {:induction false} NotIdempotent(loaded: OrderData, to: OrderStatus)
    requires loaded.Valid() && CanTransition(loaded.status, to)
    ensures ToDomain(ToPersistence(loaded.(status := to))) == Ok(loaded.(status := to))
    ensures !CanTransition(to, to)
  {
    DomainRowDomain(loaded.(status := to));
    TransitionTable(to, to);
  }

  /** The same command run twice: once the first run succeeds, the second raises and stores nothing. */
  method ExecuteTwice(repository: OrderRepository, cmd: UpdateOrderStatusCommand) returns (first: Outcome, second: Outcome)
    requires repository.Valid()
    modifies repository
    ensures repository.Valid()
    ensures first.Pass? ==> && second.Fail? && second.error.cls == InvariantViolationError
                            && cmd.orderId in repository.rows
                            && ToDomain(repository.rows[cmd.orderId]).Ok?
                            && ToDomain(repository.rows[cmd.orderId]).value.status == cmd.status
  {
    ghost var rows0 := repository.rows;
    first := Execute(repository, cmd);
    if first.Pass? {
      NotIdempotent(ToDomain(rows0[cmd.orderId]).value, cmd.status);
    }
    ghost var rows1 := repository.rows;
    second := Execute(repository, cmd);
    if first.Pass? {
      assert repository.rows == rows1;
    }
  }
}
