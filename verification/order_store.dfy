/** The local order store the gateway reads and writes: orders (status, total,
    notes) and the per-order post meta holding the finance mirror. */
module OrderStore {
  import opened Wrappers
  import Money

  type OrderId = nat

  /** Order notes: those the gateway attaches (translated texts become
      constructors), and WooCommerce's "Order status changed from X to Y." */
  datatype Note =
    | StatusChanged(from: string, to: string)
    | SharedSecretError
    | AmountMismatch
    | FinanceStatus(financeStatus: string)
    | StatusLabel(labelledStatus: string)
    | CancellationSent
    | RefundSent
    | FulfillmentSent
    | PaymentRejection(orderId: OrderId, detail: string)

  const Pending := "pending"
  const Processing := "processing"
  const OnHold := "on-hold"
  const Completed := "completed"
  const Cancelled := "cancelled"
  const Refunded := "refunded"
  const Failed := "failed"
  const CheckoutDraft := "checkout-draft"

  /** The status the gateway requests for an accepted application; WooCommerce
      does not register it. */
  const PendingPayment := "pending-payment"

  /** The order statuses WooCommerce registers (without their `wc-` prefix). */
  const OrderStatuses: set<string> := {Pending, Processing, OnHold, Completed, Cancelled, Refunded, Failed, CheckoutDraft}

  /** Statuses `WC_Order::set_status` keeps although they are not registered. */
  const StatusExceptions: set<string> := {"auto-draft", "trash"}

  /** The status `WC_Order::set_status` stores for a requested one: a `wc-`
      prefix is dropped, and anything neither registered nor an exception
      becomes "pending". */
  function NormaliseStatus(requested: string): (r: string)
    ensures r in OrderStatuses || r in StatusExceptions
  {
    var bare := if |requested| >= 3 && requested[..3] == "wc-" then requested[3..] else requested;
    if bare in OrderStatuses || bare in StatusExceptions then bare else Pending
  }

  /** A stored status is stored again unchanged, with or without its prefix,
      and an unregistered request is stored as "pending". */
  lemma NormaliseStatusFixes(status: string)
    ensures status in OrderStatuses || status in StatusExceptions ==>
      NormaliseStatus(status) == status && NormaliseStatus("wc-" + status) == status
    ensures NormaliseStatus(NormaliseStatus(status)) == NormaliseStatus(status)
    ensures NormaliseStatus(PendingPayment) == Pending
  {
    assert ("wc-" + status)[..3] == "wc-" && ("wc-" + status)[3..] == status;
    UnprefixedStatus(status);
    UnprefixedStatus(NormaliseStatus(status));
    assert PendingPayment[0] == 'p' && PendingPayment !in OrderStatuses;
  }

  lemma UnprefixedStatus(t: string)
    ensures t in OrderStatuses || t in StatusExceptions ==> |t| > 0 && t[0] != 'w'
  {
  }

  /** An order: local status, total and shipping total in minor units (the
      store keeps them to the currency's two decimals), notes, and whether it
      needs processing (`needs_processing()`: some item is not both virtual and
      downloadable). */
  datatype Order = Order(status: string, totalCents: int, shippingCents: int, notes: seq<Note>, needsProcessing: bool)
  {
    /** `get_total()` as the store reports it: the total's two-decimal text. */
    function TotalText(): string
    {
      Money.CentsText(totalCents)
    }

    /** The numeric value of `get_total()` in major units. */
    function Total(): real
    {
      totalCents as real / 100.0
    }

    /** The numeric value of `get_total_shipping()` in major units. */
    function ShippingTotal(): real
    {
      shippingCents as real / 100.0
    }
  }

  /** The finance post meta of one order (`_finance_reference`, `_finance_amount`,
      `_finance_description`) and its `_payment_method`. */
  datatype PostMeta = PostMeta(
    reference: Option<string>,
    amount: Option<string>,
    description: Option<string>,
    paymentMethod: Option<string>)

  const NoMeta := PostMeta(None, None, None, None)

  datatype Store = Store(orders: map<OrderId, Order>, meta: map<OrderId, PostMeta>)

  /** `get_post_meta`: an id without meta reads as all fields absent. */
  function MetaOf(s: Store, id: OrderId): PostMeta
  {
    if id in s.meta then s.meta[id] else NoMeta
  }

  /** `get_post_meta(..., true)` for a text field: absent reads as "". */
  function SingleText(v: Option<string>): string
  {
    v.GetOr("")
  }

  /** PHP `empty()` of a string: "" and "0" are empty. */
  predicate EmptyText(s: string)
  {
    s == "" || s == "0"
  }

  function ModifyOrder(s: Store, id: OrderId, o: Order): (r: Store)
    requires id in s.orders
    ensures r.meta == s.meta && r.orders.Keys == s.orders.Keys && r.orders[id] == o
    ensures forall m :: m in s.orders && m != id ==> r.orders[m] == s.orders[m]
  {
    s.(orders := s.orders[id := o])
  }

  /** The note saving an order adds when its status changed, and none when
      it did not. */
  function TransitionNotes(from: string, to: string): (r: seq<Note>)
    ensures |r| <= 1 && (|r| == 1 <==> from != to)
  {
    if from == to then [] else [StatusChanged(from, to)]
  }

  /** `update_status`: the requested status, as `set_status` normalises it,
      with the transition note when the status actually changes. */
  function SetStatus(s: Store, id: OrderId, status: string): (r: Store)
    requires id in s.orders
  {
    var o := s.orders[id];
    var t := NormaliseStatus(status);
    ModifyOrder(s, id, o.(status := t, notes := o.notes + TransitionNotes(o.status, t)))
  }

  function AddNote(s: Store, id: OrderId, n: Note): (r: Store)
    requires id in s.orders
  {
    ModifyOrder(s, id, s.orders[id].(notes := s.orders[id].notes + [n]))
  }

  /** The statuses `payment_complete()` moves an order on from. */
  const PayableStatuses: set<string> := {OnHold, Pending, Failed, Cancelled}

  /** The status a completed payment gives an order. */
  function PaidStatus(o: Order): (r: string)
  {
    if o.needsProcessing then Processing else Completed
  }

  /** `payment_complete()`: an order awaiting payment (on hold, pending, failed
      or cancelled) becomes processing, or completed when it needs no
      processing, with the transition note; any other order is left as it is. */
  function PaymentComplete(s: Store, id: OrderId): (r: Store)
    requires id in s.orders
  {
    var o := s.orders[id];
    if o.status in PayableStatuses then
      ModifyOrder(s, id, o.(status := PaidStatus(o), notes := o.notes + TransitionNotes(o.status, PaidStatus(o))))
    else s
  }

  /** A completed payment leaves an order out of the payable statuses, so
      completing it again changes nothing; only the status and, when it
      changed, its transition note are touched. */
  lemma PaymentCompleteSettles(s: Store, id: OrderId)
    requires id in s.orders
    ensures var o := s.orders[id];
      var o' := PaymentComplete(s, id).orders[id];
      && o'.status !in PayableStatuses
      && (o.status in PayableStatuses <==> o'.status != o.status)
      && o' == o.(status := o'.status, notes := o.notes + TransitionNotes(o.status, o'.status))
      && PaymentComplete(PaymentComplete(s, id), id) == PaymentComplete(s, id)
  {
  }

  function SetMeta(s: Store, id: OrderId, m: PostMeta): (r: Store)
    ensures r.orders == s.orders && MetaOf(r, id) == m
    ensures forall k :: k != id ==> MetaOf(r, k) == MetaOf(s, k)
  {
    s.(meta := s.meta[id := m])
  }

  /** The part of a store the finance flows decide: each order's status. */
  function Decisions(s: Store): map<OrderId, string>
  {
    map id | id in s.orders :: s.orders[id].status
  }

  /** Stores with the same orders in the same statuses have the same decisions. */
  lemma SameStatusesSameDecisions(s1: Store, s2: Store)
    requires s1.orders.Keys == s2.orders.Keys
    requires forall id :: id in s1.orders ==> s1.orders[id].status == s2.orders[id].status
    ensures Decisions(s1) == Decisions(s2)
  {
  }
}
