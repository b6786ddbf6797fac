/** The work-order rules of the room hub, on the order table as a value: who
    sees which orders, who may accept, who may change a status, who may join
    an order's room, and what a join does to the order. */
module Orders {
  import opened Records

  /** The record createWorkOrder stores: open, unassigned, created by the
      caller, both timestamps equal. */
  function NewOrder(id: string, title: string, description: string, createdBy: string, now: string): WorkOrder {
    WorkOrder(id, title, description, Open, createdBy, "", now, now)
  }

  // ---------------------------------------------------------------------
  // Listing

  /** getWorkOrdersForUser's inclusion test. */
  predicate Visible(o: WorkOrder, username: string, role: string) {
    || (role == Factory && o.createdBy == username)
    || (role == Expert && (o.status == Open || o.assignedTo == username))
  }

  /** The orders a user is shown (a JSON array in hash order; its order is
      unspecified, so the model returns a set). */
  function ForUser(orders: map<string, WorkOrder>, username: string, role: string): set<WorkOrder> {
    set id | id in orders && Visible(orders[id], username, role) :: orders[id]
  }

  /** A factory user sees exactly the orders they created. */
  lemma ForFactory(orders: map<string, WorkOrder>, username: string, o: WorkOrder)
    ensures o in ForUser(orders, username, Factory) <==> o in orders.Values && o.createdBy == username
  {
    if o in orders.Values {
      var id :| id in orders && orders[id] == o;
      assert Visible(orders[id], username, Factory) ==> o in ForUser(orders, username, Factory);
    }
  }

  /** An expert sees every open order and every order assigned to them. */
  lemma ForExpert(orders: map<string, WorkOrder>, username: string, o: WorkOrder)
    ensures o in ForUser(orders, username, Expert) <==> o in orders.Values && (o.status == Open || o.assignedTo == username)
  {
    if o in orders.Values {
      var id :| id in orders && orders[id] == o;
      assert Visible(orders[id], username, Expert) ==> o in ForUser(orders, username, Expert);
    }
  }

  /** Any other role sees nothing. */
  lemma ForOtherRole(orders: map<string, WorkOrder>, username: string, role: string)
    requires role != Factory && role != Expert
    ensures ForUser(orders, username, role) == {}
  {
  }

  // ---------------------------------------------------------------------
  // Accepting

  /** acceptWorkOrder succeeds only on an existing order whose status is
      exactly "open". */
  predicate CanAccept(orders: map<string, WorkOrder>, id: string) {
    id in orders && orders[id].status == Open
  }

  function Accept(o: WorkOrder, expert: string, now: string): WorkOrder {
    o.(status := Assigned, assignedTo := expert, updatedAt := now)
  }

  /** Once an order is accepted, a second accept by anyone fails and the
      first expert stays assigned. */
  lemma AcceptOnlyOnce(orders: map<string, WorkOrder>, id: string, first: string, now: string)
    requires CanAccept(orders, id)
    ensures var after := orders[id := Accept(orders[id], first, now)];
      !CanAccept(after, id) && after[id].assignedTo == first && after[id].status == Assigned
  {
  }

  // ---------------------------------------------------------------------
  // Status updates

  /** updateWorkOrderStatus's checks: the caller is the creator or the
      assignee, and "closed" / "canceled" are the creator's alone. Any other
      status string passes. */
  predicate MayUpdateStatus(o: WorkOrder, newStatus: string, username: string) {
    && (o.createdBy == username || o.assignedTo == username)
    && (newStatus != Closed || o.createdBy == username)
    && (newStatus != Canceled || o.createdBy == username)
  }

  function SetStatus(o: WorkOrder, newStatus: string, now: string): WorkOrder {
    o.(status := newStatus, updatedAt := now)
  }

  /** Only the creator can close or cancel. */
  lemma OnlyCreatorEnds(o: WorkOrder, newStatus: string, username: string)
    requires newStatus == Closed || newStatus == Canceled
    ensures MayUpdateStatus(o, newStatus, username) <==> o.createdBy == username
  {
  }

  /** The status is stored verbatim: the assignee may write a string outside
      the documented statuses, or "open", after which a second expert can
      accept the order and take it over. */
  lemma AssigneeMayReopen(o: WorkOrder, assignee: string, other: string, t1: string, t2: string)
    requires o.status == Assigned && o.assignedTo == assignee && o.createdBy != assignee
    ensures MayUpdateStatus(o, "paused", assignee) && "paused" !in Statuses
    ensures MayUpdateStatus(o, Open, assignee)
    ensures var reopened := map[o.id := SetStatus(o, Open, t1)];
      CanAccept(reopened, o.id) && Accept(reopened[o.id], other, t2).assignedTo == other
  {
  }

  // ---------------------------------------------------------------------
  // Joining an order's room

  /** Who may join the room named by an order id: the factory user who
      created it, or the expert it is assigned to. */
  predicate CanJoin(o: WorkOrder, user: string, role: string) {
    (role == Factory && o.createdBy == user) || (role == Expert && o.assignedTo == user)
  }

  /** What an authorised join does to the order: "assigned" becomes
      "in_progress"; any other status is left alone. */
  function Progress(o: WorkOrder, now: string): WorkOrder {
    if o.status == Assigned then o.(status := InProgress, updatedAt := now) else o
  }

  /** Only the two parties can join; a second join has no further effect on
      the order. */
  lemma JoinRules(o: WorkOrder, user: string, role: string, t1: string, t2: string)
    ensures CanJoin(o, user, role) ==> user == o.createdBy || user == o.assignedTo
    ensures Progress(Progress(o, t1), t2) == Progress(o, t1)
    ensures o.status == Assigned ==> Progress(o, t1).status == InProgress
    ensures o.status != Assigned ==> Progress(o, t1) == o
  {
  }

  /** The transition fires on the first authorised join: the creator joining
      alone, before the expert, already moves the order to "in_progress". */
  lemma CreatorAloneStartsOrder(o: WorkOrder, now: string)
    requires o.status == Assigned
    ensures CanJoin(o, o.createdBy, Factory) && Progress(o, now).status == InProgress
  {
  }

  /** An illustration of the order life cycle, one concrete run of what
      AcceptOnlyOnce and JoinRules state for all inputs: A creates,
      B accepts, C's accept is refused and B stays assigned; A and B may join
      the order's room, D may not. */
  lemma {:induction false} AcceptScenario(id: string, t0: string, t1: string, t2: string)
    ensures var o := NewOrder(id, "Pump repair", "", "A", t0);
      var table := map[id := o];
      var accepted := table[id := Accept(o, "B", t1)];
      && o.status == Open && o.assignedTo == ""
      && CanAccept(table, id)
      && accepted[id].status == Assigned && accepted[id].assignedTo == "B"
      && !CanAccept(accepted, id)
      && CanJoin(accepted[id], "A", Factory) && CanJoin(accepted[id], "B", Expert)
      && !CanJoin(accepted[id], "D", Expert) && !CanJoin(accepted[id], "D", Factory)
      && !CanJoin(accepted[id], "C", Expert)
      && Progress(Progress(accepted[id], t2), t2).status == InProgress
  {
  }
}
