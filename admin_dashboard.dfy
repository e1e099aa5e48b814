/** The admin dashboard (src/pages/AdminDashboard.jsx): the stat-card accent
    colours, the order analytics, and the ID/PIN gate in front of the page.
    The configured admin ID and PIN come from the build environment and are
    parameters here. */
module AdminDashboard {
  import opened Common
  import opened Text
  import opened Seqs

  /** The accent bar class of a stat card; unknown accents fall back to blue. */
  function AccentClass(accent: string): (r: string)
    ensures accent == "primary" ==> r == "bg-blue-600"
    ensures accent == "success" ==> r == "bg-green-600"
    ensures accent == "warning" ==> r == "bg-yellow-500"
    ensures accent == "accent" ==> r == "bg-red-600"
    ensures accent !in {"primary", "success", "warning", "accent"} ==> r == "bg-blue-600"
  {
    if accent == "primary" then "bg-blue-600"
    else if accent == "success" then "bg-green-600"
    else if accent == "warning" then "bg-yellow-500"
    else if accent == "accent" then "bg-red-600"
    else "bg-blue-600"
  }

  // ----- analytics -----

  /** The fields of a stored order the analytics read; a missing field is
      `None`. */
  datatype DashboardOrder = DashboardOrder(totalAmount: Option<real>, price: Option<real>, status: Option<string>)

  /** `o.totalAmount || o.price || 0`: a missing or zero amount falls back to
      the price, and a missing or zero price to 0. */
  function OrderAmount(o: DashboardOrder): (r: real)
    ensures o.totalAmount.Some? && o.totalAmount.value != 0.0 ==> r == o.totalAmount.value
    ensures (o.totalAmount.None? || o.totalAmount.value == 0.0) && o.price.Some? ==> r == o.price.value
    ensures (o.totalAmount.None? || o.totalAmount.value == 0.0) && o.price.None? ==> r == 0.0
  {
    if o.totalAmount.Some? && o.totalAmount.value != 0.0 then o.totalAmount.value
    else if o.price.Some? && o.price.value != 0.0 then o.price.value
    else 0.0
  }

  /** `totalRevenue`: the running sum of the order amounts, left to right. */
  function TotalRevenue(orders: seq<DashboardOrder>): real {
    if orders == [] then 0.0 else TotalRevenue(orders[..|orders| - 1]) + OrderAmount(orders[|orders| - 1])
  }

  /** Revenue adds up over consecutive runs of orders. */
  lemma {:induction false} TotalRevenueAppend(a: seq<DashboardOrder>, b: seq<DashboardOrder>)
    ensures TotalRevenue(a + b) == TotalRevenue(a) + TotalRevenue(b)
    decreases |b|
  {
    if b != [] {
      assert (a + b)[..|a + b| - 1] == a + b[..|b| - 1];
      TotalRevenueAppend(a, b[..|b| - 1]);
    } else {
      assert a + b == a;
    }
  }

  /** With no negative amounts, the revenue is at least any single order's
      amount and never negative. */
  lemma {:induction false} TotalRevenueBounds(orders: seq<DashboardOrder>, i: int)
    requires forall k :: 0 <= k < |orders| ==> OrderAmount(orders[k]) >= 0.0
    requires 0 <= i < |orders|
    ensures TotalRevenue(orders) >= OrderAmount(orders[i]) >= 0.0
  {
    NonNegativeRevenue(orders[..i]);
    NonNegativeRevenue(orders[i + 1..]);
    assert orders == orders[..i] + [orders[i]] + orders[i + 1..];
    TotalRevenueAppend(orders[..i] + [orders[i]], orders[i + 1..]);
    TotalRevenueAppend(orders[..i], [orders[i]]);
    assert [orders[i]][..0] == [];
  }

  lemma {:induction false} NonNegativeRevenue(orders: seq<DashboardOrder>)
    requires forall k :: 0 <= k < |orders| ==> OrderAmount(orders[k]) >= 0.0
    ensures TotalRevenue(orders) >= 0.0
  {
    if orders != [] {
      NonNegativeRevenue(orders[..|orders| - 1]);
    }
  }

  predicate IsPending(o: DashboardOrder) {
    o.status == Some("pending")
  }

  predicate IsCompleted(o: DashboardOrder) {
    o.status == Some("completed") || o.status == Some("delivered")
  }

  /** The number of orders whose status is `'pending'`. */
  function PendingOrders(orders: seq<DashboardOrder>): (r: nat)
    ensures r <= |orders|
    ensures r == 0 <==> forall i :: 0 <= i < |orders| ==> !IsPending(orders[i])
  {
    var kept := Filter(orders, IsPending);
    assert kept != [] ==> exists i :: 0 <= i < |orders| && orders[i] == kept[0] && IsPending(orders[i]);
    |kept|
  }

  /** The number of orders whose status is `'completed'` or `'delivered'`. */
  function CompletedOrders(orders: seq<DashboardOrder>): (r: nat)
    ensures r <= |orders|
    ensures r == 0 <==> forall i :: 0 <= i < |orders| ==> !IsCompleted(orders[i])
  {
    var kept := Filter(orders, IsCompleted);
    assert kept != [] ==> exists i :: 0 <= i < |orders| && orders[i] == kept[0] && IsCompleted(orders[i]);
    |kept|
  }

  /** An order is never both pending and completed, so the two counts
      together never exceed the number of orders. */
  lemma StatusCountsBounded(orders: seq<DashboardOrder>)
    ensures PendingOrders(orders) + CompletedOrders(orders) <= |orders|
  {
    FilterDisjointCount(orders, IsPending, IsCompleted);
  }

  /** `avgOrder`: 0 without orders, otherwise the mean amount. */
  function AvgOrder(orders: seq<DashboardOrder>): (r: real)
    ensures |orders| == 0 ==> r == 0.0
    ensures |orders| > 0 ==> r * (|orders| as real) == TotalRevenue(orders)
  {
    if |orders| > 0 then TotalRevenue(orders) / (|orders| as real) else 0.0
  }

  // ----- the gate -----

  /** `String(value || '')` for an environment setting that may be unset. */
  function EnvOrEmpty(value: Option<string>): string {
    if value.Some? then value.value else ""
  }

  /** The typed ID and PIN match the configured ones once both sides are
      trimmed. */
  predicate GateAccepts(gateId: string, gatePin: string, adminId: Option<string>, adminPin: Option<string>) {
    Matches(gateId, adminId) && Matches(gatePin, adminPin)
  }

  /** `(typed || '').trim() === String(configured || '').trim()` */
  predicate Matches(typed: string, configured: Option<string>) {
    Trim(typed) == Trim(EnvOrEmpty(configured))
  }

  /** Access: a passed gate, or a signed-in user whose role is `'admin'`. */
  function CanAccess(gateOk: bool, role: Option<string>): (r: bool)
    ensures r <==> gateOk || role == Some("admin")
  {
    gateOk || role == Some("admin")
  }

  /** With no ID or PIN configured, an all-white-space ID and PIN open the
      gate. The form's `required` inputs keep empty ones from being
      submitted, so white space is what actually reaches the handler. */
  lemma UnsetCredentialsAcceptBlank(gateId: string, gatePin: string)
    requires AllWhitespace(gateId) && AllWhitespace(gatePin)
    ensures GateAccepts(gateId, gatePin, None, None)
  {
    TrimEmptyIff(gateId);
    TrimEmptyIff(gatePin);
    TrimEmptyIff("");
  }

  /** Surrounding white space on either side never matters. */
  lemma GateIgnoresPadding(gateId: string, gatePin: string, adminId: string, adminPin: string, pad: string)
    requires AllWhitespace(pad)
    ensures GateAccepts(pad + gateId + pad, gatePin, Some(adminId), Some(adminPin))
        <==> GateAccepts(gateId, gatePin, Some(adminId), Some(adminPin))
  {
    TrimIgnoresPadding(gateId, pad);
  }

  /** The gate's state. */
  class AdminGate {
    var gateOk: bool
    var gateId: string
    var gatePin: string
    var gateError: string

    constructor ()
      ensures !gateOk && gateId == "" && gatePin == "" && gateError == ""
    {
      gateOk := false;
      gateId := "";
      gatePin := "";
      gateError := "";
    }

    /** The mount effect: a stored session `'true'` opens the gate. */
    method RestoreSession(session: Option<string>)
      modifies this
      ensures gateOk == (old(gateOk) || session == Some("true"))
      ensures gateId == old(gateId) && gatePin == old(gatePin) && gateError == old(gateError)
    {
      if session == Some("true") {
        gateOk := true;
      }
    }

    method SetGateId(value: string)
      modifies this
      ensures gateId == value
      ensures gateOk == old(gateOk) && gatePin == old(gatePin) && gateError == old(gateError)
    {
      gateId := value;
    }

    method SetGatePin(value: string)
      modifies this
      ensures gatePin == value
      ensures gateOk == old(gateOk) && gateId == old(gateId) && gateError == old(gateError)
    {
      gatePin := value;
    }

    /** `handleGateLogin`: on a match the gate opens and both inputs are
        cleared; otherwise the error is shown and nothing else changes. */
    method HandleGateLogin(adminId: Option<string>, adminPin: Option<string>)
      modifies this
      ensures old(GateAccepts(gateId, gatePin, adminId, adminPin)) ==>
                gateOk && gateId == "" && gatePin == "" && gateError == ""
      ensures !old(GateAccepts(gateId, gatePin, adminId, adminPin)) ==>
                gateOk == old(gateOk) && gateId == old(gateId) && gatePin == old(gatePin)
                && gateError == "Invalid ID or PIN"
    {
      gateError := "";
      var idOk := Matches(gateId, adminId);
      var pinOk := Matches(gatePin, adminPin);
      if idOk && pinOk {
        gateOk := true;
        gateId := "";
        gatePin := "";
      } else {
        gateError := "Invalid ID or PIN";
      }
    }

    /** `handleGateLogout` closes the gate. */
    method HandleGateLogout()
      modifies this
      ensures !gateOk
      ensures gateId == old(gateId) && gatePin == old(gatePin) && gateError == old(gateError)
    {
      gateOk := false;
    }
  }
}
