/** src/components/Alerts.tsx: how an alert's severity picks its colour
    variant and icon, the badge over the alerts button, the alert count and
    the mobile test. The drawer, sheet and accordion are layout only. */
module Alerts {
  import opened Wrappers
  import opened Strings
  import Seqs

  /** Of an alert only the severity and the header are shown. */
  datatype MbtaAlert = MbtaAlert(severity: int, header: string)

  datatype Variant = Warning | Critical
  datatype Icon = Triangle | Circle

  /** `severity <= 7 ? 'warning' : 'critical'`. */
  function AlertVariant(severity: int): (v: Variant)
    ensures v == Warning <==> severity <= 7
  {
    if severity <= 7 then Warning else Critical
  }

  /** The triangle for severities 5 to 7, the circle otherwise. */
  function AlertIcon(severity: int): (i: Icon)
    ensures i == Triangle <==> 4 < severity <= 7
  {
    if severity > 4 && severity <= 7 then Triangle else Circle
  }

  /** A triangle marks a warning; a critical alert always has the circle;
      the low severities are warnings with the circle. */
  lemma VariantAndIcon(severity: int)
    ensures AlertIcon(severity) == Triangle ==> AlertVariant(severity) == Warning
    ensures AlertVariant(severity) == Critical ==> AlertIcon(severity) == Circle
    ensures severity <= 4 ==> AlertVariant(severity) == Warning && AlertIcon(severity) == Circle
  {
  }

  datatype AlertItem = AlertItem(variant: Variant, icon: Icon, description: string)

  /** One item per alert, in order. */
  function AlertItems(alerts: seq<MbtaAlert>): (items: seq<AlertItem>)
    ensures |items| == |alerts|
    ensures forall i :: 0 <= i < |alerts| ==>
      items[i] == AlertItem(AlertVariant(alerts[i].severity), AlertIcon(alerts[i].severity), alerts[i].header)
  {
    Seqs.Map(alerts, (a: MbtaAlert) => AlertItem(AlertVariant(a.severity), AlertIcon(a.severity), a.header))
  }

  /** The badge: absent for no alerts, `99+` above 99, the count otherwise. */
  function BadgeText(count: nat): (b: Option<string>)
    ensures b.None? <==> count == 0
    ensures b == Some("99+") <==> count > 99
    ensures 0 < count <= 99 ==> b.Some? && IsDigits(b.value) && DecimalValue(b.value) == count
  {
    if count == 0 then None
    else if count > 99 then Some("99+")
    else
      NatToStringRoundTrip(count);
      Some(NatToString(count))
  }

  /** The badge never needs more than three characters. */
  lemma BadgeFits(count: nat)
    requires count > 0
    ensures 1 <= |BadgeText(count).value| <= 3
  {
  }

  /** `navigator.maxTouchPoints > 1 || window.innerWidth <= 640`. */
  function IsMobile(maxTouchPoints: int, innerWidth: int): (mobile: bool)
    ensures mobile <==> maxTouchPoints > 1 || innerWidth <= 640
  {
    maxTouchPoints > 1 || innerWidth <= 640
  }

  datatype AlertsView = AlertsView(mobile: bool, count: nat, heading: string, items: seq<AlertItem>, badge: Option<string>)

  /** The component after its effects have run: the count is the number of
      alerts and heads the `Boston` accordion. */
  function Render(alerts: seq<MbtaAlert>, maxTouchPoints: int, innerWidth: int): (v: AlertsView)
    ensures v.count == |alerts|
    ensures v.heading == "Boston (" + NatToString(|alerts|) + ")"
    ensures v.items == AlertItems(alerts)
    ensures v.badge.Some? <==> |alerts| > 0
    ensures v.badge == BadgeText(|alerts|)
    ensures v.mobile == IsMobile(maxTouchPoints, innerWidth)
  {
    AlertsView(IsMobile(maxTouchPoints, innerWidth), |alerts|,
      "Boston (" + NatToString(|alerts|) + ")", AlertItems(alerts), BadgeText(|alerts|))
  }

  /** The heading's number reads back as the alert count. */
  lemma HeadingShowsCount(alerts: seq<MbtaAlert>)
    ensures var h := Render(alerts, 0, 0).heading;
      |h| > 9 && DecimalValue(h[8..|h| - 1]) == |alerts|
  {
    var h := Render(alerts, 0, 0).heading;
    var digits := NatToString(|alerts|);
    assert h[8..|h| - 1] == digits;
    NatToStringRoundTrip(|alerts|);
  }
}
