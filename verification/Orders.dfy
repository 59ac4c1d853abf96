/** Orders and subscriptions: two tables, two payment gateways, and the admin's edits, one handler at a time. */
module Orders {
  import opened Text

  /** New orders are pending; the column is plain text, so a foreign hand could put anything there. */
  datatype Status = Pending | Paid | Other(text: string)

  datatype Order = Order(user: int, plan: int, status: Status, gateway: string)

  /** A subscription row; its id is its position plus one. Times are in seconds. */
  datatype Sub = Sub(user: int, plan: int, active: bool, expires: Option<int>, notes: Option<string>, created: int,
    updated: int)

  /** Which of a handler's database calls succeed. */
  datatype Faults = Faults(read: bool, mark: bool, find: bool, deactivate: bool, clear: bool, insert: bool)

  datatype Marked = Failed | AlreadyDone | First(user: int, plan: int)

  const THIRTY_DAYS := 2_592_000

  // ---- orders -----------------------------------------------------------------------

  function CreateOrder(orders: map<string, Order>, no: string, user: int, plan: int, ok: bool): map<string, Order> {
    if ok && no !in orders then orders[no := Order(user, plan, Pending, "")] else orders
  }

  /** The update touches the row only while it is pending. */
  function MarkRow(o: Order, gateway: string): Order {
    if o.status == Pending then o.(status := Paid, gateway := gateway) else o
  }

  function MarkOrderPaid(orders: map<string, Order>, no: string, gateway: string, f: Faults)
    : (map<string, Order>, Marked)
  {
    if !f.read then (orders, Failed)
    else if no !in orders || orders[no].status == Paid then (orders, AlreadyDone)
    else if !f.mark then (orders, Failed)
    else (orders[no := MarkRow(orders[no], gateway)], First(orders[no].user, orders[no].plan))
  }

  // ---- subscriptions ------------------------------------------------------------------

  function ClearRow(r: Sub, user: int, now: int): Sub {
    if r.user == user && r.active then r.(active := false, updated := now) else r
  }

  function Cleared(subs: seq<Sub>, user: int, now: int): seq<Sub> {
    seq(|subs|, i requires 0 <= i < |subs| => ClearRow(subs[i], user, now))
  }

  function NewSub(user: int, plan: int, expires: Option<int>, notes: Option<string>, now: int): Sub {
    Sub(user, plan, true, expires, notes, now, now)
  }

  /** `create_user_subscription`: two statements, no transaction. */
  function CreateSub(subs: seq<Sub>, n: Sub, now: int, f: Faults): (seq<Sub>, bool) {
    if !f.clear then (subs, false)
    else if !f.insert then (Cleared(subs, n.user, now), false)
    else (Cleared(subs, n.user, now) + [n], true)
  }

  function Deactivated(subs: seq<Sub>, id: nat, now: int): seq<Sub> {
    if 1 <= id <= |subs| then subs[id - 1 := subs[id - 1].(active := false, updated := now)] else subs
  }

  datatype Change = Change(plan: Option<int>, expires: Option<Option<int>>, notes: Option<string>)

  function Updated(subs: seq<Sub>, id: nat, c: Change, now: int): seq<Sub> {
    if c == Change(None, None, None) || !(1 <= id <= |subs|) then subs else
    var r := subs[id - 1];
    subs[id - 1 := r.(
      plan := if c.plan.Some? then c.plan.value else r.plan,
      expires := if c.expires.Some? then c.expires.value else r.expires,
      notes := if c.notes.Some? then c.notes else r.notes,
      updated := now)]
  }

  /** The plans there are, and how stored expiry times compare: by day, if they are written with a `T`, or in full. */
  datatype Query = Query(plans: set<int>, byDay: bool)

  const DAY := 86_400

  function Day(t: int): int { t / DAY }

  /** `expires_at > datetime('now')`. */
  predicate Unexpired(q: Query, expires: int, now: int) {
    if q.byDay then Day(expires) >= Day(now) else expires > now
  }

  /** The rows the active-subscription query considers. */
  predicate Current(r: Sub, q: Query, user: int, now: int) {
    r.user == user && r.active && r.plan in q.plans && (r.expires.Some? ==> Unexpired(q, r.expires.value, now))
  }

  /** The newest current row among the first `n`, as an id, 0 for none; equal times go to the later row. */
  function Newest(subs: seq<Sub>, q: Query, user: int, now: int, n: nat): (id: nat)
    requires n <= |subs|
    ensures id <= n
    decreases n
  {
    if n == 0 then 0 else
    var best := Newest(subs, q, user, now, n - 1);
    if Current(subs[n - 1], q, user, now)
      && (best == 0 || subs[best - 1].created <= subs[n - 1].created) then n else best
  }

  /** Payment activates a plan: the active row found, if any, is deactivated first; its failure is only logged. */
  function Activate(subs: seq<Sub>, found: nat, user: int, plan: int, now: int, f: Faults): seq<Sub> {
    var cleared := if f.find && found != 0 && f.deactivate then Deactivated(subs, found, now) else subs;
    CreateSub(cleared, NewSub(user, plan, Some(now + THIRTY_DAYS), None, now), now, f).0
  }

  // ---- handlers ---------------------------------------------------------------------

  datatype Gateway = Alipay | Stripe

  /** What a gateway hears: to send again, or that all is well. */
  datatype Answer = Again | Fine

  /** A notification: its settings could be read and hold a key, its signature is good, it reports a payment. */
  datatype Notice = Notice(gateway: Gateway, no: string, payment: string, settings: bool, signed: bool, success: bool)

  datatype Event =
    | Wait(secs: nat)
    | Buy(no: string, user: int, plan: int, ok: bool)
    | Notify(notice: Notice, f: Faults)
    | AdminCreate(user: int, plan: int, expires: Option<int>, notes: Option<string>, f: Faults)
    | AdminUpdate(id: nat, change: Change, ok: bool)
    | AdminDeactivate(id: nat, ok: bool)

  datatype State = State(now: int, q: Query, orders: map<string, Order>, subs: seq<Sub>)

  predicate Heard(n: Notice) { n.settings && n.signed && n.success && (n.gateway.Stripe? ==> n.no != "") }

  function Paying(s: State, n: Notice, f: Faults): (map<string, Order>, Marked) {
    if Heard(n) then MarkOrderPaid(s.orders, n.no, n.payment, f) else (s.orders, AlreadyDone)
  }

  function Answered(n: Notice, m: Marked): Answer {
    if !n.settings || !n.signed then Again
    else if n.gateway.Alipay? && m.Failed? then Again
    else Fine
  }

  function Step(s: State, e: Event): State {
    match e
    case Wait(secs) => s.(now := s.now + secs)
    case Buy(no, user, plan, ok) => s.(orders := CreateOrder(s.orders, no, user, plan, ok))
    case Notify(n, f) =>
      var (orders, m) := Paying(s, n, f);
      if m.First? then
        var found := Newest(s.subs, s.q, m.user, s.now, |s.subs|);
        s.(orders := orders, subs := Activate(s.subs, found, m.user, m.plan, s.now, f))
      else s
    case AdminCreate(user, plan, expires, notes, f) =>
      s.(subs := CreateSub(s.subs, NewSub(user, plan, expires, notes, s.now), s.now, f).0)
    case AdminUpdate(id, c, ok) => if ok then s.(subs := Updated(s.subs, id, c, s.now)) else s
    case AdminDeactivate(id, ok) => if ok then s.(subs := Deactivated(s.subs, id, s.now)) else s
  }

  function Run(s: State, es: seq<Event>): State
    decreases es
  {
    if es == [] then s else Run(Step(s, es[0]), es[1..])
  }

  // ---- the tables as an object ---------------------------------------------------------

  class Database {
    var now: int
    var orders: map<string, Order>
    var subs: seq<Sub>
    const q: Query

    constructor (now: int, q: Query)
      ensures Tables() == State(now, q, map[], [])
    {
      this.now, this.q, orders, subs := now, q, map[], [];
    }

    function Tables(): State
      reads this
    {
      State(now, q, orders, subs)
    }

    method PlaceOrder(no: string, user: int, plan: int, ok: bool) returns (placed: bool)
      modifies this`orders
      ensures Tables() == Step(old(Tables()), Buy(no, user, plan, ok))
      ensures placed == (ok && no !in old(orders))
    {
      placed := ok && no !in orders;
      if placed { orders := orders[no := Order(user, plan, Pending, "")]; }
    }

    method MarkPaid(no: string, gateway: string, f: Faults) returns (m: Marked)
      modifies this`orders
      ensures (orders, m) == MarkOrderPaid(old(orders), no, gateway, f)
    {
      if !f.read { return Failed; }
      if no !in orders { return AlreadyDone; }
      var o := orders[no];
      if o.status == Paid { return AlreadyDone; }
      if !f.mark { return Failed; }
      if o.status == Pending {
        orders := orders[no := Order(o.user, o.plan, Paid, gateway)];
      }
      assert orders == old(orders)[no := MarkRow(o, gateway)];
      m := First(o.user, o.plan);
    }

    method GetActive(user: int) returns (id: nat)
      ensures id == Newest(subs, q, user, now, |subs|)
    {
      id := 0;
      var i := 0;
      while i < |subs|
        invariant 0 <= i <= |subs|
        invariant id == Newest(subs, q, user, now, i) && id <= i
      {
        if Current(subs[i], q, user, now) && (id == 0 || subs[id - 1].created <= subs[i].created) {
          id := i + 1;
        }
        i := i + 1;
      }
    }

    method CreateSubscription(user: int, plan: int, expires: Option<int>, notes: Option<string>, f: Faults)
      returns (ok: bool)
      modifies this`subs
      ensures (subs, ok) == CreateSub(old(subs), NewSub(user, plan, expires, notes, now), now, f)
    {
      if !f.clear { return false; }
      subs := Cleared(subs, user, now);
      if !f.insert { return false; }
      subs := subs + [Sub(user, plan, true, expires, notes, now, now)];
      ok := true;
    }

    method DeactivateSubscription(id: nat, ok: bool)
      modifies this`subs
      ensures Tables() == Step(old(Tables()), AdminDeactivate(id, ok))
    {
      if ok && 1 <= id <= |subs| {
        subs := subs[id - 1 := subs[id - 1].(active := false, updated := now)];
      }
    }

    method UpdateSubscription(id: nat, c: Change, ok: bool)
      modifies this`subs
      ensures Tables() == Step(old(Tables()), AdminUpdate(id, c, ok))
    {
      if c.plan.None? && c.expires.None? && c.notes.None? { return; }
      if !ok || id < 1 || id > |subs| { return; }
      var r := subs[id - 1].(updated := now);
      if c.plan.Some? { r := r.(plan := c.plan.value); }
      if c.expires.Some? { r := r.(expires := c.expires.value); }
      if c.notes.Some? { r := r.(notes := c.notes); }
      subs := subs[id - 1 := r];
    }

    /** Both webhooks, from the checks on the notification to the activation. */
    method Webhook(n: Notice, f: Faults) returns (a: Answer)
      modifies this`orders, this`subs
      ensures Tables() == Step(old(Tables()), Notify(n, f))
      ensures a == Answered(n, Paying(old(Tables()), n, f).1)
    {
      if !n.settings || !n.signed { return Again; }
      if !n.success { return Fine; }
      if n.gateway.Stripe? && n.no == "" { return Fine; }
      var m := MarkPaid(n.no, n.payment, f);
      if m.First? {
        var found := GetActive(m.user);
        if f.find && found != 0 {
          DeactivateSubscription(found, f.deactivate);
        }
        var ok := CreateSubscription(m.user, m.plan, Some(now + THIRTY_DAYS), None, f);
      } else if m.Failed? && n.gateway.Alipay? {
        return Again;
      }
      a := Fine;
    }
  }

  // ---- orders over every run -----------------------------------------------------------

  /** The status of this order, if it exists, is one the service itself writes. */
  predicate Plain(s: State, no: string) { no in s.orders ==> !s.orders[no].status.Other? }

  /** What may become of an order: nothing, or pending turns paid. */
  predicate Advances(o: Order, p: Order) {
    p.user == o.user && p.plan == o.plan && (p == o || (o.status == Pending && p.status == Paid))
  }

  /** Over every run an order only goes from pending to paid, and keeps its user and plan. */
  lemma {:induction false} OrdersAdvance(s: State, es: seq<Event>, no: string)
    ensures var t := Run(s, es); no in s.orders ==> no in t.orders && Advances(s.orders[no], t.orders[no])
    decreases es
  {
    if es != [] {
      OrdersAdvance(Step(s, es[0]), es[1..], no);
    }
  }

  /** The step is a first payment of this order. */
  predicate Activates(s: State, e: Event, no: string) {
    e.Notify? && e.notice.no == no && Paying(s, e.notice, e.f).1.First?
  }

  function Activations(s: State, es: seq<Event>, no: string): nat
    decreases es
  {
    if es == [] then 0
    else (if Activates(s, es[0], no) then 1 else 0) + Activations(Step(s, es[0]), es[1..], no)
  }

  predicate IsPaid(s: State, no: string) { no in s.orders && s.orders[no].status == Paid }

  lemma PaidStep(s: State, e: Event, no: string)
    requires Plain(s, no)
    ensures Plain(Step(s, e), no)
    ensures Activates(s, e, no) <==> !IsPaid(s, no) && IsPaid(Step(s, e), no)
    ensures IsPaid(s, no) ==> IsPaid(Step(s, e), no)
  {
  }

  /** A plain order yields an activation at most once across both gateways, and exactly when a run turns it paid. */
  lemma {:induction false} ActivatedOnce(s: State, es: seq<Event>, no: string)
    requires Plain(s, no)
    ensures Activations(s, es, no) == if !IsPaid(s, no) && IsPaid(Run(s, es), no) then 1 else 0
    ensures IsPaid(s, no) ==> IsPaid(Run(s, es), no)
    decreases es
  {
    if es != [] {
      PaidStep(s, es[0], no);
      ActivatedOnce(Step(s, es[0]), es[1..], no);
    }
  }

  /** A status that is neither pending nor paid is reported as a first payment every time and never changes. */
  lemma ForeignStatusRepeats(s: State, n: Notice, f: Faults)
    requires n.no in s.orders && s.orders[n.no].status.Other? && Heard(n) && f.read && f.mark
    ensures Activates(s, Notify(n, f), n.no) && Step(s, Notify(n, f)).orders[n.no] == s.orders[n.no]
  {
  }

  lemma {:induction false} TwoActivations(s: State, no: string)
    requires !Plain(s, no)
    ensures exists es :: Activations(s, es, no) == 2
  {
    var e := Notify(Notice(Alipay, no, "", true, true, true), Faults(true, true, true, true, true, true));
    ForeignStatusRepeats(s, e.notice, e.f);
    ForeignStatusRepeats(Step(s, e), e.notice, e.f);
    assert [e, e][1..] == [e] && [e][1..] == [];
    assert Activations(Step(s, e), [e], no) == 1;
    assert Activations(s, [e, e], no) == 2;
  }

  /**
   * No run activates an order twice exactly when its status is one the service writes, whatever the other orders are.
   */
  lemma AtMostOneActivationExactly(s: State, no: string)
    ensures (forall es :: Activations(s, es, no) <= 1) <==> (no in s.orders ==> !s.orders[no].status.Other?)
  {
    if Plain(s, no) {
      forall es ensures Activations(s, es, no) <= 1 { ActivatedOnce(s, es, no); }
    } else {
      TwoActivations(s, no);
    }
  }

  /** An order this service created is activated at most once, whatever runs before and after. */
  lemma CreatedActivatesOnce(s: State, no: string, user: int, plan: int, es: seq<Event>)
    requires no !in s.orders
    ensures Activations(Step(s, Buy(no, user, plan, true)), es, no) <= 1
  {
    ActivatedOnce(Step(s, Buy(no, user, plan, true)), es, no);
  }

  /** Failed database calls: Alipay is asked to send again, Stripe is told all is well and the order stays unpaid. */
  lemma FailedMark(s: State, n: Notice, f: Faults)
    requires Heard(n) && n.no in s.orders && s.orders[n.no].status == Pending
    ensures var (orders, m) := Paying(s, n, f);
      && (m.Failed? <==> !f.read || !f.mark)
      && (m.Failed? ==> Step(s, Notify(n, f)) == s && Answered(n, m) == if n.gateway.Alipay? then Again else Fine)
      && (!m.Failed? ==> IsPaid(Step(s, Notify(n, f)), n.no) && Answered(n, m) == Fine)
  {
  }

  // ---- subscriptions over every run ------------------------------------------------------

  /** No user has two active rows. */
  predicate OneActive(subs: seq<Sub>) {
    forall i, j :: 0 <= i < j < |subs| && subs[i].active && subs[j].active ==> subs[i].user != subs[j].user
  }

  predicate NoneActive(subs: seq<Sub>, user: int) {
    forall i :: 0 <= i < |subs| && subs[i].active ==> subs[i].user != user
  }

  lemma ClearedNone(subs: seq<Sub>, user: int, now: int)
    ensures NoneActive(Cleared(subs, user, now), user)
    ensures OneActive(subs) ==> OneActive(Cleared(subs, user, now))
  {
  }

  lemma CreateKeepsOne(subs: seq<Sub>, n: Sub, now: int, f: Faults)
    requires OneActive(subs)
    ensures OneActive(CreateSub(subs, n, now, f).0)
  {
    ClearedNone(subs, n.user, now);
  }

  lemma DeactivateKeepsOne(subs: seq<Sub>, id: nat, now: int)
    requires OneActive(subs)
    ensures OneActive(Deactivated(subs, id, now))
  {
  }

  lemma UpdateKeepsOne(subs: seq<Sub>, id: nat, c: Change, now: int)
    requires OneActive(subs)
    ensures OneActive(Updated(subs, id, c, now))
  {
  }

  lemma ActivateKeepsOne(subs: seq<Sub>, found: nat, user: int, plan: int, now: int, f: Faults)
    requires OneActive(subs)
    ensures OneActive(Activate(subs, found, user, plan, now, f))
  {
    DeactivateKeepsOne(subs, found, now);
    var cleared := if f.find && found != 0 && f.deactivate then Deactivated(subs, found, now) else subs;
    CreateKeepsOne(cleared, NewSub(user, plan, Some(now + THIRTY_DAYS), None, now), now, f);
  }

  lemma OneActiveStep(s: State, e: Event)
    requires OneActive(s.subs)
    ensures OneActive(Step(s, e).subs)
  {
    match e
    case Wait(_) =>
    case Buy(_, _, _, _) =>
    case Notify(n, f) =>
      var m := Paying(s, n, f).1;
      if m.First? {
        ActivateKeepsOne(s.subs, Newest(s.subs, s.q, m.user, s.now, |s.subs|), m.user, m.plan, s.now, f);
      }
    case AdminCreate(user, plan, expires, notes, f) =>
      CreateKeepsOne(s.subs, NewSub(user, plan, expires, notes, s.now), s.now, f);
    case AdminUpdate(id, c, _) => UpdateKeepsOne(s.subs, id, c, s.now);
    case AdminDeactivate(id, _) => DeactivateKeepsOne(s.subs, id, s.now);
  }

  /** Each user has at most one active row after every run, whichever database calls fail. */
  lemma {:induction false} OneActiveRun(s: State, es: seq<Event>)
    requires OneActive(s.subs)
    ensures OneActive(Run(s, es).subs)
    decreases es
  {
    if es != [] {
      OneActiveStep(s, es[0]);
      OneActiveRun(Step(s, es[0]), es[1..]);
    }
  }

  /** A row the query may return. */
  predicate FoundFor(subs: seq<Sub>, user: int, found: nat) {
    1 <= found <= |subs| && subs[found - 1].user == user && subs[found - 1].active
  }

  /** Clearing after deactivating one of the user's active rows is clearing. */
  lemma ClearAbsorbs(subs: seq<Sub>, user: int, found: nat, now: int)
    requires FoundFor(subs, user, found)
    ensures Cleared(Deactivated(subs, found, now), user, now) == Cleared(subs, user, now)
  {
  }

  /**
   * The explicit deactivation before an activation changes nothing: the whole table comes out as from the creation
   * alone, for any row the query returned, exactly unless the creation's own clearing fails after the deactivation
   * went through.
   */
  lemma ActivationIsCreation(subs: seq<Sub>, found: nat, user: int, plan: int, now: int, f: Faults)
    requires found != 0 ==> FoundFor(subs, user, found)
    ensures var n := NewSub(user, plan, Some(now + THIRTY_DAYS), None, now);
      Activate(subs, found, user, plan, now, f) == CreateSub(subs, n, now, f).0 <==>
        f.clear || found == 0 || !f.find || !f.deactivate
  {
    if found != 0 {
      ClearAbsorbs(subs, user, found, now);
      assert Deactivated(subs, found, now)[found - 1].active != subs[found - 1].active;
    }
  }

  /** Alphabetical order. */
  predicate Before(a: string, b: string) {
    b != "" && (a == "" || a[0] < b[0] || (a[0] == b[0] && Before(a[1..], b[1..])))
  }

  lemma {:induction false} BeforeConcat(a: string, b: string, x: string, y: string)
    requires |a| == |b|
    ensures Before(a + x, b + y) <==> Before(a, b) || (a == b && Before(x, y))
    decreases a
  {
    if a == "" {
      assert a + x == x && b + y == y;
    } else {
      assert (a + x)[1..] == a[1..] + x && (b + y)[1..] == b[1..] + y;
      BeforeConcat(a[1..], b[1..], x, y);
      assert a == [a[0]] + a[1..] && b == [b[0]] + b[1..];
    }
  }

  /**
   * Why a `T` makes expiry a matter of days: a stored time is later than the current one, written with a space,
   * exactly when its day is not before today, whatever the hours.
   */
  lemma TextComparesByDay(day: string, time: string, today: string, clock: string)
    requires |day| == |today|
    ensures Before(today + ([' '] + clock), day + (['T'] + time)) <==> today == day || Before(today, day)
  {
    BeforeConcat(today, day, [' '] + clock, ['T'] + time);
  }

  /** The two readings differ exactly on a time that has passed earlier the same day, which by day still counts. */
  lemma ReadingsDiffer(plans: set<int>, expires: int, now: int)
    ensures Unexpired(Query(plans, true), expires, now) <==>
      Unexpired(Query(plans, false), expires, now) || (expires <= now && Day(expires) == Day(now))
  {
    DayMono(now, expires);
    DayMono(expires, now);
  }

  lemma DayMono(a: int, b: int)
    ensures a <= b ==> Day(a) <= Day(b)
  {
  }

  /** A subscription that has expired is found, by day, exactly until its last day ends. */
  lemma ExpiredStillFound(r: Sub, plans: set<int>, user: int, now: int)
    requires r.expires.Some? && r.expires.value <= now && r.user == user && r.active && r.plan in plans
    ensures !Current(r, Query(plans, false), user, now)
    ensures Current(r, Query(plans, true), user, now) <==> Day(r.expires.value) == Day(now)
  {
    ReadingsDiffer(plans, r.expires.value, now);
  }

  lemma {:induction false} NewestIs(subs: seq<Sub>, q: Query, user: int, now: int, n: nat)
    requires n <= |subs|
    ensures var id := Newest(subs, q, user, now, n);
      && (id != 0 ==> Current(subs[id - 1], q, user, now))
      && (forall i :: 0 <= i < n && Current(subs[i], q, user, now) ==>
            id != 0 && subs[i].created <= subs[id - 1].created)
    decreases n
  {
    if n > 0 {
      NewestIs(subs, q, user, now, n - 1);
    }
  }

  /** The handler's own lookup, in the handler's own order of calls. */
  lemma PaymentIsCreation(s: State, n: Notice, f: Faults)
    requires Paying(s, n, f).1.First? && f.clear
    ensures var m := Paying(s, n, f).1;
      Step(s, Notify(n, f)).subs ==
        CreateSub(s.subs, NewSub(m.user, m.plan, Some(s.now + THIRTY_DAYS), None, s.now), s.now, f).0
  {
    var m := Paying(s, n, f).1;
    var found := Newest(s.subs, s.q, m.user, s.now, |s.subs|);
    NewestIs(s.subs, s.q, m.user, s.now, |s.subs|);
    ActivationIsCreation(s.subs, found, m.user, m.plan, s.now, f);
  }

  /** No row of the user is current. */
  lemma NoneCurrent(subs: seq<Sub>, q: Query, user: int, now: int)
    requires forall i :: 0 <= i < |subs| ==> !Current(subs[i], q, user, now)
    ensures Newest(subs, q, user, now, |subs|) == 0
  {
    NewestIs(subs, q, user, now, |subs|);
  }

  /** The only row that is current is the newest one. */
  lemma OnlyCurrent(subs: seq<Sub>, q: Query, user: int, now: int, id: nat)
    requires 1 <= id <= |subs| && Current(subs[id - 1], q, user, now)
    requires forall i :: 0 <= i < |subs| && i != id - 1 ==> !Current(subs[i], q, user, now)
    ensures Newest(subs, q, user, now, |subs|) == id
  {
    NewestIs(subs, q, user, now, |subs|);
  }

  /**
   * After a first payment the lookup finds the new row exactly when clearing and insertion went through and the plan
   * exists; when only the insertion failed, the order is paid and the user has no active row at all.
   */
  lemma PaidAndActive(s: State, n: Notice, f: Faults)
    requires Paying(s, n, f).1.First?
    ensures var m := Paying(s, n, f).1; var t := Step(s, Notify(n, f));
      var id := Newest(t.subs, t.q, m.user, t.now, |t.subs|);
      && IsPaid(t, n.no) == (s.orders[n.no].status == Pending)
      && (id == |s.subs| + 1 <==> f.clear && f.insert && m.plan in s.q.plans)
      && (id == |s.subs| + 1 ==> t.subs[id - 1].plan == m.plan && t.subs[id - 1].active)
      && (f.clear && !f.insert ==> id == 0 && NoneActive(t.subs, m.user))
  {
    var m := Paying(s, n, f).1;
    var t := Step(s, Notify(n, f));
    if f.clear {
      PaymentIsCreation(s, n, f);
      ClearedNone(s.subs, m.user, s.now);
      if f.insert && m.plan in s.q.plans {
        assert Current(t.subs[|s.subs|], t.q, m.user, t.now);
        OnlyCurrent(t.subs, t.q, m.user, t.now, |s.subs| + 1);
      } else {
        NoneCurrent(t.subs, t.q, m.user, t.now);
      }
    }
  }

  /**
   * When the clearing itself fails, no row is added: the user keeps the row found, unless the separate deactivation
   * before it went through, and then has none. Either way the order is paid.
   */
  lemma ClearingFailed(s: State, n: Notice, f: Faults)
    requires Paying(s, n, f).1.First? && !f.clear && OneActive(s.subs)
    ensures var m := Paying(s, n, f).1; var t := Step(s, Notify(n, f));
      var found := Newest(s.subs, s.q, m.user, s.now, |s.subs|);
      && |t.subs| == |s.subs|
      && Newest(t.subs, t.q, m.user, t.now, |t.subs|) == if f.find && f.deactivate then 0 else found
  {
    var m := Paying(s, n, f).1;
    var t := Step(s, Notify(n, f));
    NewestIs(s.subs, s.q, m.user, s.now, |s.subs|);
    if f.find && f.deactivate { NoneCurrent(t.subs, t.q, m.user, t.now); }
  }
}
