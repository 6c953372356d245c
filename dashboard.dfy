/** The dashboard's rules: the urgent-notification badge, how a notification
    is styled and which icon it carries, and the stored actual-versus-
    forecast variances of the trend chart. */
module Dashboard {
  import EditableForecastTable

  /** A notification; `kind` is its type: "critical", "warning", "info" or
      "success" in the data, any string in the model. */
  datatype Notification = Notification(id: int, kind: string, title: string, urgent: bool)

  /** The notification panel's entries. */
  function Notifications(): seq<Notification>
  {
    [ Notification(1, "critical", "Immediate Action Required", true),
      Notification(2, "warning", "Forecast Deviation Alert", false),
      Notification(3, "info", "Weekly Sync Complete", false),
      Notification(4, "success", "AI Model Updated", false) ]
  }

  /** The urgent-only filter behind the badge: the urgent notifications,
      each as often as it occurs. */
  function UrgentNotifications(ns: seq<Notification>): (r: seq<Notification>)
    ensures forall n :: multiset(r)[n] == if n.urgent then multiset(ns)[n] else 0
  {
    if ns == [] then []
    else
      assert ns == [ns[0]] + ns[1..];
      (if ns[0].urgent then [ns[0]] else []) + UrgentNotifications(ns[1..])
  }

  /** The number on the panel's "urgent" badge. */
  function UrgentCount(ns: seq<Notification>): (n: nat)
    ensures n > 0 <==> exists x <- ns :: x.urgent
  {
    var r := UrgentNotifications(ns);
    assert r != [] ==> r[0] in multiset(r);
    |r|
  }

  /** The badge counts no notification that is not urgent and misses none
      that is: it is zero exactly when nothing is urgent, and it reaches the
      panel's length exactly when everything is. */
  lemma {:induction false} UrgentCountBounds(ns: seq<Notification>)
    ensures UrgentCount(ns) <= |ns|
    ensures UrgentCount(ns) == 0 <==> forall n <- ns :: !n.urgent
    ensures UrgentCount(ns) == |ns| <==> forall n <- ns :: n.urgent
  {
    if ns != [] {
      UrgentCountBounds(ns[1..]);
      assert forall n <- ns :: n == ns[0] || n in ns[1..];
    }
  }

  /** The panel shows one urgent notification. */
  lemma SampleUrgentCount()
    ensures UrgentCount(Notifications()) == 1
  {
  }

  datatype AlertStyle = RedBorder | YellowBorder | GreenBorder | BlueBorder

  /** The alert's border and background: urgency first, then the type. */
  function NotificationStyle(n: Notification): (s: AlertStyle)
    ensures s == RedBorder <==> n.urgent
  {
    if n.urgent then RedBorder
    else if n.kind == "warning" then YellowBorder
    else if n.kind == "success" then GreenBorder
    else BlueBorder
  }

  /** Urgency overrides the type; among the rest, only warning and success
      have colours of their own, so a critical notification that is not
      urgent is styled like an informational one. */
  lemma StylePrecedence(n: Notification)
    ensures NotificationStyle(n) == RedBorder <==> n.urgent
    ensures NotificationStyle(n) == YellowBorder <==> !n.urgent && n.kind == "warning"
    ensures NotificationStyle(n) == GreenBorder <==> !n.urgent && n.kind == "success"
    ensures NotificationStyle(n) == BlueBorder <==> !n.urgent && n.kind != "warning" && n.kind != "success"
    ensures !n.urgent && n.kind == "critical" ==> NotificationStyle(n) == BlueBorder
  {
  }

  datatype Icon = RedTriangle | YellowTriangle | BlueClock | GreenCheck

  /** The icons drawn before the title: one conditional per known type. */
  function Icons(kind: string): (icons: seq<Icon>)
    ensures |icons| <= 1
    ensures icons == [] <==> kind !in {"critical", "warning", "info", "success"}
  {
    (if kind == "critical" then [RedTriangle] else [])
    + (if kind == "warning" then [YellowTriangle] else [])
    + (if kind == "info" then [BlueClock] else [])
    + (if kind == "success" then [GreenCheck] else [])
  }

  /** Each of the four types gets exactly one icon, its own; any other type
      gets none. */
  lemma OneIconPerKind(kind: string)
    ensures kind == "critical" ==> Icons(kind) == [RedTriangle]
    ensures kind == "warning" ==> Icons(kind) == [YellowTriangle]
    ensures kind == "info" ==> Icons(kind) == [BlueClock]
    ensures kind == "success" ==> Icons(kind) == [GreenCheck]
    ensures |Icons(kind)| == if kind in {"critical", "warning", "info", "success"} then 1 else 0
  {
  }

  /** A month of the actual-versus-forecast chart, with its stored
      percentage variance. */
  datatype VariancePoint = VariancePoint(month: string, actual: int, forecast: int, variance: real)

  function VarianceData(): seq<VariancePoint>
  {
    [ VariancePoint("Jan 2024", 2200, 2150, 2.3),
      VariancePoint("Feb 2024", 2850, 2900, -1.7),
      VariancePoint("Mar 2024", 3100, 3050, 1.6),
      VariancePoint("Apr 2024", 3850, 3800, 1.3),
      VariancePoint("May 2024", 4200, 4150, 1.2),
      VariancePoint("Jun 2024", 3900, 4000, -2.5),
      VariancePoint("Jul 2024", 4500, 4400, 2.3),
      VariancePoint("Aug 2024", 4100, 4200, -2.4) ]
  }

  /** A stored variance is the computed one rounded to one decimal: a whole
      number of tenths, no more than half a tenth away. */
  predicate RoundedToTenth(stored: real, exact: real)
  {
    && (stored * 10.0).Floor as real == stored * 10.0
    && -0.05 <= stored - exact <= 0.05
  }

  /** The stored variance of month `i` agrees with the table's variance
      formula, `(actual - forecast) / forecast * 100`, to one decimal. */
  lemma VariancePointConsistent(i: nat)
    requires i < |VarianceData()|
    ensures VarianceData()[i].forecast != 0
    ensures RoundedToTenth(VarianceData()[i].variance,
                           EditableForecastTable.CalculateVariance(VarianceData()[i].actual, VarianceData()[i].forecast))
  {
    var p := VarianceData()[i];
    var v := EditableForecastTable.CalculateVariance(p.actual, p.forecast);
    assert v * (p.forecast as real) == (p.actual - p.forecast) as real * 100.0;
  }

  /** Every month's stored variance is its computed variance to one decimal. */
  lemma VarianceDataConsistent()
    ensures forall p <- VarianceData() ::
              p.forecast != 0
              && RoundedToTenth(p.variance, EditableForecastTable.CalculateVariance(p.actual, p.forecast))
  {
    forall p <- VarianceData()
      ensures p.forecast != 0
      ensures RoundedToTenth(p.variance, EditableForecastTable.CalculateVariance(p.actual, p.forecast))
    {
      var i :| 0 <= i < |VarianceData()| && VarianceData()[i] == p;
      VariancePointConsistent(i);
    }
  }
}
