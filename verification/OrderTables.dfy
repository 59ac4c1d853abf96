/** What becomes of every row of the two tables, over every run of the handlers, read off the events alone. */
module OrderTables {
  import opened Text
  import opened Orders

  // ---- orders ---------------------------------------------------------------------------

  /** A purchase under this number that reaches the table. */
  predicate Buys(e: Event, no: string) { e.Buy? && e.ok && e.no == no }

  /** A genuine report that this order was paid, with both statements that mark it going through. */
  predicate Pays(e: Event, no: string) {
    && e.Notify? && e.notice.no == no && e.f.read && e.f.mark
    && e.notice.settings && e.notice.signed && e.notice.success && (no == "" ==> e.notice.gateway.Alipay?)
  }

  /** The position of the first purchase under this number, or the number of events. */
  function FirstPurchase(es: seq<Event>, no: string): (i: nat)
    ensures i <= |es| && (i < |es| ==> Buys(es[i], no)) && forall j :: 0 <= j < i ==> !Buys(es[j], no)
  {
    if es == [] || Buys(es[0], no) then 0 else 1 + FirstPurchase(es[1..], no)
  }

  function FirstPayment(es: seq<Event>, no: string): (i: nat)
    ensures i <= |es| && (i < |es| ==> Pays(es[i], no)) && forall j :: 0 <= j < i ==> !Pays(es[j], no)
  {
    if es == [] || Pays(es[0], no) then 0 else 1 + FirstPayment(es[1..], no)
  }

  /** An order that is not pending never changes. */
  lemma {:induction false} SettledStays(s: State, es: seq<Event>, no: string)
    requires no in s.orders && s.orders[no].status != Pending
    ensures no in Run(s, es).orders && Run(s, es).orders[no] == s.orders[no]
    decreases es
  {
    if es != [] { SettledStays(Step(s, es[0]), es[1..], no); }
  }

  /** A pending order is marked by the first genuine payment of the run, with its number, and by nothing else. */
  lemma {:induction false} PendingFate(s: State, es: seq<Event>, no: string)
    requires no in s.orders && s.orders[no].status == Pending
    ensures var t, i, o := Run(s, es), FirstPayment(es, no), s.orders[no];
      no in t.orders && t.orders[no] ==
        if i == |es| then o else Order(o.user, o.plan, Paid, es[i].notice.payment)
    decreases es
  {
    if es != [] {
      var t := Step(s, es[0]);
      if Pays(es[0], no) { SettledStays(t, es[1..], no); } else { PendingFate(t, es[1..], no); }
    }
  }

  /**
   * An order is in the table exactly if some purchase stored it: with the user and plan of the first one, pending and
   * without a payment number until the first genuine payment after it, and from then on paid, with the number of that.
   */
  lemma {:induction false} OrderExactly(s: State, es: seq<Event>, no: string)
    requires no !in s.orders
    ensures var t, i := Run(s, es), FirstPurchase(es, no);
      && (no in t.orders <==> i < |es|)
      && (i < |es| ==>
            var later := es[i + 1..];
            var p := FirstPayment(later, no);
            t.orders[no] ==
              if p == |later| then Order(es[i].user, es[i].plan, Pending, "")
              else Order(es[i].user, es[i].plan, Paid, later[p].notice.payment))
    decreases es
  {
    if es != [] {
      var t := Step(s, es[0]);
      if Buys(es[0], no) {
        PendingFate(t, es[1..], no);
      } else {
        OrderExactly(t, es[1..], no);
        assert forall i :: 1 <= i < |es| ==> es[i + 1..] == es[1..][i..];
      }
    }
  }

  // ---- what the gateways hear -------------------------------------------------------------

  /** The order is there, and not paid yet. */
  predicate Unpaid(s: State, no: string) { no in s.orders && s.orders[no].status != Paid }

  /**
   * Every notification: it is asked for again if it cannot be checked or is not genuine, and over Alipay if a statement
   * of the marking fails; and the tables change only for a genuine payment of an order that is there and not paid.
   */
  lemma WebhookExactly(s: State, n: Notice, f: Faults)
    ensures Answered(n, Paying(s, n, f).1) == Again <==>
      || !n.settings || !n.signed
      || (n.gateway.Alipay? && n.success && (!f.read || (Unpaid(s, n.no) && !f.mark)))
    ensures !(Pays(Notify(n, f), n.no) && Unpaid(s, n.no)) ==> Step(s, Notify(n, f)) == s
    ensures forall no :: no != n.no ==>
      (no in s.orders <==> no in Step(s, Notify(n, f)).orders)
      && (no in s.orders ==> Step(s, Notify(n, f)).orders[no] == s.orders[no])
  {
  }

  // ---- subscriptions ----------------------------------------------------------------------

  datatype Opening = Opening(user: int, plan: int, expires: Option<int>, notes: Option<string>)

  /**
   * The subscription an event opens, if its two statements go through: the admin's, or the one an order pays for,
   * for thirty days.
   */
  function Opened(s: State, e: Event): Option<Opening> {
    match e
    case AdminCreate(user, plan, expires, notes, f) =>
      if f.clear && f.insert then Some(Opening(user, plan, expires, notes)) else None
    case Notify(n, f) =>
      if Pays(e, n.no) && Unpaid(s, n.no) && f.clear && f.insert
      then Some(Opening(s.orders[n.no].user, s.orders[n.no].plan, Some(s.now + 2_592_000), None))
      else None
    case _ => None
  }

  /** A step adds at most the row it opens, active, as of now. */
  lemma RowAdded(s: State, e: Event)
    ensures var t, o := Step(s, e), Opened(s, e);
      && |t.subs| == |s.subs| + (if o.Some? then 1 else 0)
      && (o.Some? ==>
            t.subs[|s.subs|] ==
              Sub(o.value.user, o.value.plan, true, o.value.expires, o.value.notes, s.now, s.now))
  {
  }

  /** The user whose active rows an event clears. */
  predicate ClearsUser(s: State, e: Event, user: int) {
    || (e.AdminCreate? && e.f.clear && e.user == user)
    || (e.Notify? && Pays(e, e.notice.no) && Unpaid(s, e.notice.no) && e.f.clear
        && s.orders[e.notice.no].user == user)
  }

  /** The row that is deactivated by its number: by the admin, or as the current one of a user who paid. */
  predicate Names(s: State, e: Event, i: nat) {
    || (e.AdminDeactivate? && e.ok && e.id == i + 1)
    || (e.Notify? && Pays(e, e.notice.no) && Unpaid(s, e.notice.no) && e.f.find && e.f.deactivate
        && Newest(s.subs, s.q, s.orders[e.notice.no].user, s.now, |s.subs|) == i + 1)
  }

  predicate Amends(e: Event, i: nat) {
    e.AdminUpdate? && e.ok && e.id == i + 1 && e.change != Change(None, None, None)
  }

  /**
   * A row keeps its user and creation time. It ends exactly when its user is cleared or it is named; only the admin's
   * update changes its plan, expiry and notes, and only those given; and every write sets its time.
   */
  lemma RowStep(s: State, e: Event, i: nat)
    requires i < |s.subs|
    ensures var t := Step(s, e); var r, u := s.subs[i], t.subs[i];
      && i < |t.subs| && u.user == r.user && u.created == r.created
      && (u.active <==> r.active && !ClearsUser(s, e, r.user) && !Names(s, e, i))
      && (if Amends(e, i) then
            && u.plan == (if e.change.plan.Some? then e.change.plan.value else r.plan)
            && u.expires == (if e.change.expires.Some? then e.change.expires.value else r.expires)
            && u.notes == (if e.change.notes.Some? then e.change.notes else r.notes)
          else u.plan == r.plan && u.expires == r.expires && u.notes == r.notes)
      && u.updated == (if Amends(e, i) || Names(s, e, i) || (r.active && ClearsUser(s, e, r.user)) then s.now
                       else r.updated)
  {
    if e.Notify? && e.notice.no in s.orders {
      NewestIs(s.subs, s.q, s.orders[e.notice.no].user, s.now, |s.subs|);
    }
  }

  /** What the successful updates of this row have given last, field by field. */
  function Latest(es: seq<Event>, i: nat): Change {
    if es == [] then Change(None, None, None) else
    var c := Latest(es[1..], i);
    if Amends(es[0], i)
    then Change(
      if c.plan.Some? then c.plan else es[0].change.plan,
      if c.expires.Some? then c.expires else es[0].change.expires,
      if c.notes.Some? then c.notes else es[0].change.notes)
    else c
  }

  /**
   * Over every run a row keeps its user and creation time, never becomes active again, and has the plan, expiry and
   * notes that the admin gave it last.
   */
  lemma {:induction false} RowHistory(s: State, es: seq<Event>, i: nat)
    requires i < |s.subs|
    ensures var t := Run(s, es); var c := Latest(es, i);
      && i < |t.subs| && t.subs[i].user == s.subs[i].user && t.subs[i].created == s.subs[i].created
      && (t.subs[i].active ==> s.subs[i].active)
      && t.subs[i].plan == (if c.plan.Some? then c.plan.value else s.subs[i].plan)
      && t.subs[i].expires == (if c.expires.Some? then c.expires.value else s.subs[i].expires)
      && t.subs[i].notes == (if c.notes.Some? then c.notes else s.subs[i].notes)
    decreases es
  {
    if es != [] {
      RowStep(s, es[0], i);
      RowHistory(Step(s, es[0]), es[1..], i);
    }
  }

  /** A creation reports success exactly if its row is there, which takes both of its statements. */
  lemma CreationReports(subs: seq<Sub>, n: Sub, now: int, f: Faults)
    ensures var (rows, ok) := CreateSub(subs, n, now, f);
      && (ok <==> f.clear && f.insert) && (ok <==> |rows| > |subs|) && (ok ==> rows[|rows| - 1] == n)
  {
  }

  function Waited(es: seq<Event>): nat {
    if es == [] then 0 else (if es[0].Wait? then es[0].secs else 0) + Waited(es[1..])
  }

  /** Only waiting passes time, and waiting does nothing else. */
  lemma {:induction false} ClockRun(s: State, es: seq<Event>)
    ensures var t := Run(s, es);
      && t.now == s.now + Waited(es) && t.q == s.q
      && ((forall i :: 0 <= i < |es| ==> es[i].Wait?) ==> t.orders == s.orders && t.subs == s.subs)
    decreases es
  {
    if es != [] { ClockRun(Step(s, es[0]), es[1..]); }
  }

  // ---- the lookup ---------------------------------------------------------------------------

  /** The user's row, active, of a plan there is, without an end, or before its end: by day, the end of its last day. */
  predicate Lasts(r: Sub, q: Query, user: int, now: int) {
    && r.user == user && r.active && r.plan in q.plans
    && (r.expires.None? || now < if q.byDay then r.expires.value / 86_400 * 86_400 + 86_400 else r.expires.value)
  }

  lemma DayBounds(t: int)
    ensures Day(t) * 86_400 <= t < Day(t) * 86_400 + 86_400
  {
  }

  lemma LastsIsCurrent(r: Sub, q: Query, user: int, now: int)
    ensures Current(r, q, user, now) <==> Lasts(r, q, user, now)
  {
    DayBounds(now);
    if r.expires.Some? { DayBounds(r.expires.value); }
  }

  /** The lookup finds a row exactly if the user has one that lasts, and then one of those created last. */
  lemma FoundExactly(subs: seq<Sub>, q: Query, user: int, now: int)
    ensures var id := Newest(subs, q, user, now, |subs|);
      && (id != 0 <==> exists i :: 0 <= i < |subs| && Lasts(subs[i], q, user, now))
      && (id != 0 ==> Lasts(subs[id - 1], q, user, now))
      && (forall i :: 0 <= i < |subs| && Lasts(subs[i], q, user, now) ==> subs[i].created <= subs[id - 1].created)
  {
    NewestIs(subs, q, user, now, |subs|);
    forall i | 0 <= i < |subs| ensures Current(subs[i], q, user, now) <==> Lasts(subs[i], q, user, now) {
      LastsIsCurrent(subs[i], q, user, now);
    }
  }
}
