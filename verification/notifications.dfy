/**
 * The push and notification-click handlers (sw.js, lines 146-191): defaulting the
 * fields of a push payload, and choosing between focusing an open window and
 * opening a new one.
 */
module Notifications {
  import opened Options
  import opened Strings
  import opened Http

  const DEFAULT_TITLE: string := "용인대학교 출석시스템"
  const DEFAULT_BODY: string := "새로운 알림이 있습니다."

  /** The application root, the target when a notification carries no URL. */
  const ROOT_URL: string := "./"

  /** JavaScript's `value || fallback` for a string field that may be absent; "" is falsy. */
  function OrElse(value: Option<string>, fallback: string): string
  {
    if value.Some? && value.value != "" then value.value else fallback
  }

  /** The data of a push event: none, text that is not JSON, or a JSON object's string fields. */
  datatype PushData =
    | NoData
    | Unparsable
    | Payload(title: Option<string>, body: Option<string>, url: Option<string>)

  /** A notification to display; `url` is carried in its data for the click handler. */
  datatype Notification = Notification(title: string, body: string, url: string)

  /** What the push handler does. */
  datatype PushEffect = Ignored | Threw | Show(notification: Notification)

  /**
   * The push handler: without data it returns at once; data that is not JSON makes
   * `json()` throw, so nothing is shown; otherwise it shows a notification whose title,
   * body and URL are the payload's, each replaced by its default when absent or empty.
   */
  function OnPush(data: PushData): (e: PushEffect)
    ensures e.Ignored? <==> data.NoData?
    ensures e.Threw? <==> data.Unparsable?
    ensures e.Show? <==> data.Payload?
    ensures e.Show? ==>
      && (data.title.Some? && data.title.value != "" ==> e.notification.title == data.title.value)
      && (data.title.None? || data.title.value == "" ==> e.notification.title == DEFAULT_TITLE)
      && (data.body.Some? && data.body.value != "" ==> e.notification.body == data.body.value)
      && (data.body.None? || data.body.value == "" ==> e.notification.body == DEFAULT_BODY)
      && (data.url.Some? && data.url.value != "" ==> e.notification.url == data.url.value)
      && (data.url.None? || data.url.value == "" ==> e.notification.url == ROOT_URL)
    ensures e.Show? ==> e.notification.title != "" && e.notification.body != "" && e.notification.url != ""
  {
    match data
    case NoData => Ignored
    case Unparsable => Threw
    case Payload(title, body, url) =>
      Show(Notification(OrElse(title, DEFAULT_TITLE), OrElse(body, DEFAULT_BODY), OrElse(url, ROOT_URL)))
  }

  /** The data object of a clicked notification: absent, or an object with an optional `url`. */
  datatype NotificationData = Missing | Data(url: Option<string>)

  /** `event.notification.data?.url || './'`. */
  function ClickTarget(data: NotificationData): (target: string)
    ensures target != ""
    ensures data.Data? && data.url.Some? && data.url.value != "" ==> target == data.url.value
    ensures data.Missing? || data.url.None? || data.url.value == "" ==> target == ROOT_URL
  {
    match data
    case Missing => ROOT_URL
    case Data(url) => OrElse(url, ROOT_URL)
  }

  /** A notification shown by the push handler is clicked through to the URL it was pushed with. */
  lemma PushedUrlIsClickTarget(data: PushData)
    requires data.Payload?
    ensures ClickTarget(Data(Some(OnPush(data).notification.url))) == OrElse(data.url, ROOT_URL)
  {
  }

  /** An open window client, as `clients.matchAll` lists it. */
  datatype Client = Client(url: string, focusable: bool)

  /** A client the click handler focuses: its URL contains the target and it can be focused. */
  ghost predicate Shows(c: Client, target: string)
  {
    Occurs(c.url, target) && c.focusable
  }

  /** What the click handler does. */
  datatype ClickAction = Focus(index: nat) | OpenWindow(url: string) | NoAction

  /**
   * The client selection of the click handler, over the window clients in enumeration
   * order: focus the first client that shows `target`; if none does, open a window at
   * `target` when the host supports `openWindow`, and do nothing otherwise.
   */
  method FocusOrOpen(target: string, clients: seq<Client>, canOpenWindow: bool) returns (action: ClickAction)
    ensures action.Focus? ==>
      && action.index < |clients|
      && Shows(clients[action.index], target)
      && forall j :: 0 <= j < action.index ==> !Shows(clients[j], target)
    ensures action.OpenWindow? <==>
      canOpenWindow && forall j :: 0 <= j < |clients| ==> !Shows(clients[j], target)
    ensures action.NoAction? <==>
      !canOpenWindow && forall j :: 0 <= j < |clients| ==> !Shows(clients[j], target)
    ensures action.OpenWindow? ==> action.url == target
  {
    var i := 0;
    while i < |clients|
      invariant 0 <= i <= |clients|
      invariant forall j :: 0 <= j < i ==> !Shows(clients[j], target)
    {
      if Includes(clients[i].url, target) && clients[i].focusable {
        return Focus(i);
      }
      i := i + 1;
    }
    if canOpenWindow {
      return OpenWindow(target);
    }
    return NoAction;
  }

  /** The notification-click handler as written: the target is compared as given. */
  method OnNotificationClick(data: NotificationData, clients: seq<Client>, canOpenWindow: bool)
    returns (action: ClickAction)
    ensures action.Focus? ==>
      && action.index < |clients|
      && Shows(clients[action.index], ClickTarget(data))
      && forall j :: 0 <= j < action.index ==> !Shows(clients[j], ClickTarget(data))
    ensures action.OpenWindow? <==>
      canOpenWindow && forall j :: 0 <= j < |clients| ==> !Shows(clients[j], ClickTarget(data))
    ensures action.NoAction? <==>
      !canOpenWindow && forall j :: 0 <= j < |clients| ==> !Shows(clients[j], ClickTarget(data))
    ensures action.OpenWindow? ==> action.url == ClickTarget(data)
  {
    action := FocusOrOpen(ClickTarget(data), clients, canOpenWindow);
  }

  /**
   * As written, a notification without a URL targets "./", which no normalized page
   * URL contains (URL parsing removes "." path segments): the handler then opens a new
   * window even when a window of the application is already open.
   */
  method DefaultTargetOpensNewWindow(clients: seq<Client>) returns (action: ClickAction)
    requires forall j :: 0 <= j < |clients| ==> !Occurs(clients[j].url, "./")
    ensures action == OpenWindow("./")
  {
    action := OnNotificationClick(Missing, clients, true);
  }

  /**
   * The target as the browser would resolve it against the worker's directory `scope`:
   * an absolute `http…` URL stays as it is, a relative one is resolved.
   */
  function ResolveTarget(scope: string, target: string): (url: string)
    ensures StartsWith(target, "http") ==> url == target
    ensures target == ROOT_URL ==> url == scope
  {
    if StartsWith(target, "http") then target else ResolveRelative(scope, target)
  }

  /** The click handler comparing client URLs with the resolved target. */
  method OnNotificationClickResolved(data: NotificationData, scope: string, clients: seq<Client>, canOpenWindow: bool)
    returns (action: ClickAction)
    ensures action.Focus? ==>
      && action.index < |clients|
      && Shows(clients[action.index], ResolveTarget(scope, ClickTarget(data)))
      && forall j :: 0 <= j < action.index ==> !Shows(clients[j], ResolveTarget(scope, ClickTarget(data)))
    ensures action.OpenWindow? <==>
      canOpenWindow && forall j :: 0 <= j < |clients| ==> !Shows(clients[j], ResolveTarget(scope, ClickTarget(data)))
    ensures action.NoAction? <==>
      !canOpenWindow && forall j :: 0 <= j < |clients| ==> !Shows(clients[j], ResolveTarget(scope, ClickTarget(data)))
    ensures action.OpenWindow? ==> action.url == ResolveTarget(scope, ClickTarget(data))
  {
    action := FocusOrOpen(ResolveTarget(scope, ClickTarget(data)), clients, canOpenWindow);
  }

  /**
   * With the target resolved, a notification without a URL focuses the first focusable
   * window of the application (a page under the worker's directory) when one is open.
   */
  method DefaultTargetFocusesOpenPage(scope: string, clients: seq<Client>, canOpenWindow: bool)
    returns (action: ClickAction)
    requires exists j :: 0 <= j < |clients| && StartsWith(clients[j].url, scope) && clients[j].focusable
    ensures action.Focus? && action.index < |clients|
    ensures clients[action.index].focusable
    ensures Occurs(clients[action.index].url, scope)
    ensures forall j :: 0 <= j < action.index ==>
      !(StartsWith(clients[j].url, scope) && clients[j].focusable)
  {
    var j :| 0 <= j < |clients| && StartsWith(clients[j].url, scope) && clients[j].focusable;
    PrefixIsIncluded(clients[j].url, scope);
    assert Shows(clients[j], scope);
    action := OnNotificationClickResolved(Missing, scope, clients, canOpenWindow);
    forall k | 0 <= k < action.index
      ensures !(StartsWith(clients[k].url, scope) && clients[k].focusable)
    {
      if StartsWith(clients[k].url, scope) {
        PrefixIsIncluded(clients[k].url, scope);
      }
    }
  }
}
