/**
 * The alerts page: it fetches the alert list, shows the unresolved alerts one row per alert with
 * a type badge and a resolve button, and creates simulated alerts from a small form.
 */
module AlertsPage {
  import opened Wrappers
  import opened Seqs
  import opened Strings

  /** The badge `renderType` draws: its word and colours. */
  datatype Badge = Badge(word: string, color: string, bg: string)

  const CriticalBadge: Badge := Badge("CRITICAL", "#ff1744", "rgba(255,23,68,0.14)")
  const WarningBadge: Badge := Badge("WARNING", "#ffe600", "rgba(255,230,0,0.14)")
  const InfoBadge: Badge := Badge("INFO", "#00fff7", "rgba(0,255,247,0.14)")

  /** The own keys of `TYPE_MAP`. */
  function TypeEntry(kind: string): Option<Badge>
  {
    if kind == "critical" then Some(CriticalBadge)
    else if kind == "warning" then Some(WarningBadge)
    else if kind == "info" then Some(InfoBadge)
    else None
  }

  /**
   * The names every object literal inherits from `Object.prototype`. Looking one of them up in
   * `TYPE_MAP` finds a function (or, for `__proto__`, the prototype itself), which is truthy.
   */
  const InheritedNames: set<string> := {
    "constructor", "toString", "toLocaleString", "valueOf", "hasOwnProperty", "isPrototypeOf",
    "propertyIsEnumerable", "__proto__", "__defineGetter__", "__defineSetter__",
    "__lookupGetter__", "__lookupSetter__"
  }

  /**
   * `renderType` as written: `TYPE_MAP[type] || TYPE_MAP.info`. An inherited name is truthy, so
   * the `||` keeps it, and its missing `word`, `color` and `bg` print as `undefined`.
   */
  function RenderTypeAsWritten(kind: string): (b: Badge)
    ensures TypeEntry(kind).Some? ==> b == TypeEntry(kind).value
    ensures TypeEntry(kind).None? && kind !in InheritedNames ==> b == InfoBadge
    ensures kind in InheritedNames ==> b.word == "undefined"
  {
    match TypeEntry(kind)
    case Some(entry) => entry
    case None => if kind in InheritedNames then Badge("undefined", "undefined", "undefined") else InfoBadge
  }

  /** An alert of type `constructor` gets a badge reading `undefined` instead of the INFO badge. */
  lemma InheritedTypeShowsUndefined()
    ensures RenderTypeAsWritten("constructor").word == "undefined"
    ensures RenderType("constructor") == InfoBadge
  {
    assert "constructor" in InheritedNames;
  }

  /** `renderType` as intended: the three known types get their badge, every other type INFO. */
  function RenderType(kind: string): (b: Badge)
    ensures kind == "critical" ==> b == CriticalBadge
    ensures kind == "warning" ==> b == WarningBadge
    ensures kind !in {"critical", "warning"} ==> b == InfoBadge
    ensures b == CriticalBadge || b == WarningBadge || b == InfoBadge
  {
    TypeEntry(kind).GetOr(InfoBadge)
  }

  /** The two agree on every type that is not an inherited name. */
  lemma RenderTypeAgrees(kind: string)
    requires kind !in InheritedNames
    ensures RenderTypeAsWritten(kind) == RenderType(kind)
  {
  }

  /** A row of the alert list, as the backend returns it. */
  datatype Alert = Alert(id: nat, kind: string, message: string, timestamp: string, resolved: int)

  /** `alertsData.filter(alert => alert.resolved === 0)`. */
  function ActiveAlerts(alerts: seq<Alert>): (active: seq<Alert>)
    ensures forall a :: a in active <==> a in alerts && a.resolved == 0
    ensures IsSubsequence(active, alerts)
  {
    Filter(alerts, (a: Alert) => a.resolved == 0)
  }

  /** A row of the alerts table. */
  datatype Row =
    /** The single row shown when nothing is active. */
    | NoActiveAlerts
    /** A row for one alert: its CSS class, badge, message and the `data-alert-id` of its button. */
    | AlertRow(cssClass: string, badge: Badge, message: string, buttonId: string)
    /** The row `showError` leaves. */
    | ErrorRow(message: string)

  /**
   * The row `renderAlerts` builds for one alert. Its badge is the one `renderType` draws as
   * written, so it reads "undefined" for an inherited name and is the intended badge otherwise.
   */
  function RowOf(a: Alert): (row: Row)
    ensures row.AlertRow? && row.message == a.message
    ensures a.kind !in InheritedNames ==> row.badge == RenderType(a.kind)
    ensures a.kind in InheritedNames ==> row.badge.word == "undefined"
  {
    AlertRow("ep-alert-row ep-alert-" + a.kind, RenderTypeAsWritten(a.kind), a.message, DecimalString(a.id))
  }

  /** The row's button names the alert it was built for: its `data-alert-id` reads back as the id. */
  lemma ButtonNamesAlert(a: Alert)
    ensures RowOf(a).AlertRow? && ParseInt(RowOf(a).buttonId) == Some(a.id)
  {
    ParseIntOfDecimal(a.id, "");
    assert DecimalString(a.id) + "" == DecimalString(a.id);
  }

  /** The table `renderAlerts` shows for `alerts`. */
  predicate ShowsAlerts(rows: seq<Row>, alerts: seq<Alert>)
  {
    var active := ActiveAlerts(alerts);
    if active == [] then rows == [NoActiveAlerts]
    else |rows| == |active| && forall k :: 0 <= k < |active| ==> rows[k] == RowOf(active[k])
  }

  const LoadError: string := "Failed to load alerts from server"
  const EmptyMessageNotice: string := "Enter a description for the alert."
  const CreateFailedNotice: string := "Failed to create alert"
  const ResolveFailedNotice: string := "Failed to resolve alert"

  /** What the `GET /alerts` request comes to: an ok reply's list, or an exception. */
  datatype ListReply = ListOk(alerts: seq<Alert>) | ListFailed

  /** A `POST /alerts` body. */
  datatype NewAlert = NewAlert(kind: string, message: string)

  /** The page's state: the module-level `alertsData`, the table, the form's text box, and the requests it sent. */
  class AlertsView {
    var alertsData: seq<Alert>
    var tbody: seq<Row>
    /** The text of the `sim-alert-msg` box. */
    var draft: string
    /** How many times `fetchAlerts` ran. */
    var refreshes: nat
    /** The bodies of the `POST /alerts` requests, in order. */
    var created: seq<NewAlert>
    /** The ids of the `PUT /alerts/:id/resolve` requests, in order. */
    var resolved: seq<string>

    constructor ()
      ensures alertsData == [] && tbody == [] && draft == [] && refreshes == 0 && created == [] && resolved == []
    {
      alertsData, tbody, draft := [], [], [];
      refreshes, created, resolved := 0, [], [];
    }

    /** `renderAlerts`: the "No active alerts" row, or one row per active alert, in order. */
    method RenderAlerts()
      modifies this
      ensures ShowsAlerts(tbody, alertsData)
      ensures alertsData == old(alertsData) && draft == old(draft) && refreshes == old(refreshes)
      ensures created == old(created) && resolved == old(resolved)
    {
      var active := ActiveAlerts(alertsData);
      if |active| == 0 {
        tbody := [NoActiveAlerts];
        return;
      }
      var rows := [];
      var i := 0;
      while i < |active|
        invariant 0 <= i <= |active|
        invariant |rows| == i && forall k :: 0 <= k < i ==> rows[k] == RowOf(active[k])
      {
        rows := rows + [RowOf(active[i])];
        i := i + 1;
      }
      tbody := rows;
    }

    /** `fetchAlerts`: an ok reply replaces the list and re-renders; a failure shows the error row. */
    method FetchAlerts(reply: ListReply)
      modifies this
      ensures refreshes == old(refreshes) + 1
      ensures reply.ListOk? ==> alertsData == reply.alerts && ShowsAlerts(tbody, alertsData)
      ensures reply.ListFailed? ==> alertsData == old(alertsData) && tbody == [ErrorRow(LoadError)]
      ensures draft == old(draft) && created == old(created) && resolved == old(resolved)
    {
      refreshes := refreshes + 1;
      match reply
      case ListOk(alerts) =>
        alertsData := alerts;
        RenderAlerts();
      case ListFailed =>
        tbody := [ErrorRow(LoadError)];
    }

    /**
     * `createAlert`: the request goes out; an ok reply refreshes the list once, anything else
     * shows the failure notice and refreshes nothing.
     */
    method CreateAlert(kind: string, message: string, accepted: bool, refresh: ListReply) returns (notice: Option<string>)
      modifies this
      ensures created == old(created) + [NewAlert(kind, message)]
      ensures accepted ==> refreshes == old(refreshes) + 1 && notice == None
      ensures accepted && refresh.ListOk? ==> alertsData == refresh.alerts && ShowsAlerts(tbody, alertsData)
      ensures accepted && refresh.ListFailed? ==> alertsData == old(alertsData) && tbody == [ErrorRow(LoadError)]
      ensures !accepted ==> refreshes == old(refreshes) && notice == Some(CreateFailedNotice)
      ensures !accepted ==> alertsData == old(alertsData) && tbody == old(tbody)
      ensures draft == old(draft) && resolved == old(resolved)
    {
      created := created + [NewAlert(kind, message)];
      if !accepted {
        return Some(CreateFailedNotice);
      }
      FetchAlerts(refresh);
      notice := None;
    }

    /** `resolveAlert`: the same pattern for `PUT /alerts/:id/resolve`. */
    method ResolveAlert(alertId: string, accepted: bool, refresh: ListReply) returns (notice: Option<string>)
      modifies this
      ensures resolved == old(resolved) + [alertId]
      ensures accepted ==> refreshes == old(refreshes) + 1 && notice == None
      ensures accepted && refresh.ListOk? ==> alertsData == refresh.alerts && ShowsAlerts(tbody, alertsData)
      ensures accepted && refresh.ListFailed? ==> alertsData == old(alertsData) && tbody == [ErrorRow(LoadError)]
      ensures !accepted ==> refreshes == old(refreshes) && notice == Some(ResolveFailedNotice)
      ensures !accepted ==> alertsData == old(alertsData) && tbody == old(tbody)
      ensures draft == old(draft) && created == old(created)
    {
      resolved := resolved + [alertId];
      if !accepted {
        return Some(ResolveFailedNotice);
      }
      FetchAlerts(refresh);
      notice := None;
    }

    /** A click on the resolve button of row `k`: it resolves the alert named by the button. */
    method ClickResolve(k: nat, accepted: bool, refresh: ListReply) returns (notice: Option<string>)
      requires k < |tbody| && tbody[k].AlertRow?
      modifies this
      ensures resolved == old(resolved) + [old(tbody[k].buttonId)]
      ensures accepted ==> refreshes == old(refreshes) + 1 && notice == None
      ensures accepted && refresh.ListOk? ==> alertsData == refresh.alerts && ShowsAlerts(tbody, alertsData)
      ensures accepted && refresh.ListFailed? ==> alertsData == old(alertsData) && tbody == [ErrorRow(LoadError)]
      ensures !accepted ==> refreshes == old(refreshes) && notice == Some(ResolveFailedNotice)
      ensures !accepted ==> alertsData == old(alertsData) && tbody == old(tbody)
      ensures draft == old(draft) && created == old(created)
    {
      notice := ResolveAlert(tbody[k].buttonId, accepted, refresh);
    }

    /** Typing into the message box. */
    method TypeMessage(text: string)
      modifies this
      ensures draft == text
      ensures alertsData == old(alertsData) && tbody == old(tbody) && refreshes == old(refreshes)
      ensures created == old(created) && resolved == old(resolved)
    {
      draft := text;
    }

    /**
     * The simulate button: a blank message only shows a notice and sends nothing; otherwise the
     * trimmed message is created and the box is cleared, whether or not the request succeeded.
     */
    method Simulate(kind: string, accepted: bool, refresh: ListReply) returns (notice: Option<string>)
      modifies this
      ensures Trim(old(draft)) == [] ==>
                && notice == Some(EmptyMessageNotice) && created == old(created)
                && refreshes == old(refreshes) && draft == old(draft)
                && alertsData == old(alertsData) && tbody == old(tbody)
      ensures Trim(old(draft)) != [] ==>
                && created == old(created) + [NewAlert(kind, Trim(old(draft)))]
                && draft == []
                && refreshes == old(refreshes) + (if accepted then 1 else 0)
      ensures Trim(old(draft)) != [] && accepted ==> notice == None
      ensures Trim(old(draft)) != [] && accepted && refresh.ListOk? ==>
                alertsData == refresh.alerts && ShowsAlerts(tbody, alertsData)
      ensures Trim(old(draft)) != [] && accepted && refresh.ListFailed? ==>
                alertsData == old(alertsData) && tbody == [ErrorRow(LoadError)]
      ensures Trim(old(draft)) != [] && !accepted ==>
                notice == Some(CreateFailedNotice) && alertsData == old(alertsData) && tbody == old(tbody)
      ensures resolved == old(resolved)
    {
      var message := Trim(draft);
      if message == [] {
        return Some(EmptyMessageNotice);
      }
      notice := CreateAlert(kind, message, accepted, refresh);
      draft := [];
    }
  }

  /** Every active alert gets exactly its own row, and the rows name the alerts' ids in list order. */
  lemma RowsNameActiveAlerts(rows: seq<Row>, alerts: seq<Alert>, k: nat)
    requires ShowsAlerts(rows, alerts) && ActiveAlerts(alerts) != [] && k < |rows|
    ensures rows[k].AlertRow? && ParseInt(rows[k].buttonId) == Some(ActiveAlerts(alerts)[k].id)
    ensures ActiveAlerts(alerts)[k].resolved == 0 && ActiveAlerts(alerts)[k] in alerts
  {
    ButtonNamesAlert(ActiveAlerts(alerts)[k]);
  }
}
