/** The plan label in the header: product name, status text and colour, and the crown icon. */
module SubscriptionStatus {
  import opened Wrappers
  import opened Text
  import opened StripeConfig

  /** A row of `stripe_user_subscriptions`. */
  datatype SubscriptionData = SubscriptionData(
    status: string, priceId: Option<string>, currentPeriodEnd: Option<int>, cancelAtPeriodEnd: bool)

  datatype StatusDisplay =
    | NotShown
    | Loading
    | FreePlan
    | Plan(productName: string, statusText: string, color: string, crown: bool)

  function StatusColor(status: string): (r: string)
    ensures r in {"text-green-600", "text-yellow-600", "text-red-600", "text-gray-600"}
    ensures r == "text-gray-600" <==> status !in {"active", "past_due", "canceled"}
  {
    if status == "active" then "text-green-600"
    else if status == "past_due" then "text-yellow-600"
    else if status == "canceled" then "text-red-600"
    else "text-gray-600"
  }

  function StatusText(sub: SubscriptionData): (r: string)
    ensures sub.status in {"active", "past_due", "canceled"} ==> r in {"Canceling", "Active", "Past Due", "Canceled"}
    ensures sub.status !in {"active", "past_due", "canceled"} ==> r == sub.status
    ensures r == "Canceling" && sub.status != "Canceling" ==> sub.status == "active" && sub.cancelAtPeriodEnd
  {
    if sub.status == "active" && sub.cancelAtPeriodEnd then "Canceling"
    else if sub.status == "active" then "Active"
    else if sub.status == "past_due" then "Past Due"
    else if sub.status == "canceled" then "Canceled"
    else sub.status
  }

  /** The name of the product for the price id, falling back to "Premium". */
  function ProductName(priceId: Option<string>): (r: string)
    ensures r != ""
    ensures r == "Premium" || exists p :: p in Products && p.name == r && priceId == Some(p.priceId)
  {
    var product := if Truthy(priceId) then GetProductByPriceId(priceId.value) else None;
    if product.Some? && product.value.name != "" then product.value.name else "Premium"
  }

  /** What the component renders for a signed-in user (or not), while loading (or not). */
  function Display(signedIn: bool, loading: bool, subscription: Option<SubscriptionData>): (r: StatusDisplay)
    ensures r == NotShown <==> !signedIn
    ensures r == Loading <==> signedIn && loading
    ensures r.Plan? ==> subscription.Some? && r.productName != "" && (r.crown <==> r.color == "text-green-600")
  {
    if !signedIn then NotShown
    else if loading then Loading
    else if subscription.None? || subscription.value.status == "not_started" then FreePlan
    else
      var sub := subscription.value;
      Plan(ProductName(sub.priceId), StatusText(sub), StatusColor(sub.status), sub.status == "active")
  }

  /** "Free Plan" shows exactly when there is no record or its status is `not_started`. */
  lemma FreePlanSpec(subscription: Option<SubscriptionData>)
    ensures Display(true, false, subscription) == FreePlan
            <==> subscription.None? || subscription.value.status == "not_started"
    ensures Display(true, false, subscription) != NotShown && Display(true, false, subscription) != Loading
  {
  }

  /** The labels: an active subscription that cancels at the period end reads "Canceling", the
      three known statuses have their own label, and any other status is shown as it is. */
  lemma StatusLabels(sub: SubscriptionData)
    ensures sub.status == "active" ==> (StatusText(sub) == "Canceling" <==> sub.cancelAtPeriodEnd)
    ensures sub.status == "active" && !sub.cancelAtPeriodEnd ==> StatusText(sub) == "Active"
    ensures sub.status == "past_due" ==> StatusText(sub) == "Past Due"
    ensures sub.status == "canceled" ==> StatusText(sub) == "Canceled"
    ensures sub.status !in {"active", "past_due", "canceled"} ==> StatusText(sub) == sub.status
  {
  }

  /** The colours: green, yellow and red for the three known statuses, gray otherwise; the
      crown and the green colour go together, whether or not the plan is canceling. */
  lemma StatusColours(subscription: Option<SubscriptionData>)
    requires subscription.Some? && subscription.value.status != "not_started"
    ensures var d := Display(true, false, subscription);
            var status := subscription.value.status;
            && d.Plan?
            && (d.color == "text-green-600" <==> status == "active")
            && (d.color == "text-yellow-600" <==> status == "past_due")
            && (d.color == "text-red-600" <==> status == "canceled")
            && (d.color == "text-gray-600" <==> status !in {"active", "past_due", "canceled"})
            && (d.crown <==> d.color == "text-green-600")
  {
  }

  /** A price id in the catalogue names its product; no price id, or an unknown one, shows "Premium". */
  lemma ProductNameSpec(priceId: Option<string>)
    ensures Truthy(priceId) && GetProductByPriceId(priceId.value).Some?
            && GetProductByPriceId(priceId.value).value.name != ""
            ==> ProductName(priceId) == GetProductByPriceId(priceId.value).value.name
    ensures !Truthy(priceId) || GetProductByPriceId(priceId.value).None? ==> ProductName(priceId) == "Premium"
    ensures ProductName(Some("price_1SuKjuLjj7dwILwNnn1ZX8K7")) == "Bolt Namer"
  {
    ShippedPriceResolves();
  }

  /** The outcome of the subscription query. */
  datatype FetchResult = QueryError | Threw | Fetched(data: Option<SubscriptionData>)

  /** The component's state. */
  class StatusState {
    var subscription: Option<SubscriptionData>
    var loading: bool

    constructor()
      ensures subscription == None && loading
    {
      subscription := None;
      loading := true;
    }

    function Shown(signedIn: bool): StatusDisplay
      reads this
    {
      Display(signedIn, loading, subscription)
    }

    /**
     * The effect on a change of user: signed out, loading just stops; signed in, the query's
     * record replaces the subscription unless the query fails. Loading ends either way.
     */
    method Refresh(signedIn: bool, result: FetchResult)
      modifies this
      ensures !loading
      ensures subscription == if signedIn && result.Fetched? then result.data else old(subscription)
      ensures signedIn ==> Shown(signedIn) != Loading && Shown(signedIn) != NotShown
    {
      if signedIn {
        match result {
          case QueryError =>
          case Threw =>
          case Fetched(data) => subscription := data;
        }
      }
      loading := false;
    }
  }
}
