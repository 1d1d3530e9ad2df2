/**
 * Inbound-message routing (`mqtt_callback`, uhome/uhome.py:27-30), on the
 * entity list seen as a sequence of (data topic, stored action) routes.
 * The scan visits every entity in registration order and runs the action
 * of each one whose topic matches; there is no early exit. A matching
 * entity without an action makes the source raise (calling `None`, or a
 * sensor with no `_action` attribute), which ends the scan: that outcome
 * is `ok == false`.
 */
module Routing {
  import opened Values
  import opened MqttClient

  datatype Route = Route(topic: string, action: Option<ActionId>)

  /** The actions run, in order, and whether the scan completed without raising. */
  datatype Delivery = Delivery(invoked: seq<Event>, ok: bool)

  function Dispatch(routes: seq<Route>, topic: string, msg: string): (d: Delivery)
    ensures |d.invoked| <= |routes|
    ensures forall i :: 0 <= i < |d.invoked| ==> d.invoked[i].Invoked? && d.invoked[i].msg == msg
    decreases |routes|
  {
    if routes == [] then Delivery([], true)
    else
      var before := Dispatch(routes[..|routes| - 1], topic, msg);
      var r := routes[|routes| - 1];
      if !before.ok || r.topic != topic then before
      else match r.action
        case None => Delivery(before.invoked, false)
        case Some(a) => Delivery(before.invoked + [Invoked(a, msg)], true)
  }

  /** The routes whose topic is `topic`, in order: an independent filter. */
  function Matching(routes: seq<Route>, topic: string): (ms: seq<Route>)
    ensures |ms| <= |routes|
    ensures forall i :: 0 <= i < |ms| ==> ms[i].topic == topic && ms[i] in routes
    ensures forall j :: 0 <= j < |routes| && routes[j].topic == topic ==> routes[j] in ms
    ensures ms == [] <==> forall j :: 0 <= j < |routes| ==> routes[j].topic != topic
    decreases |routes|
  {
    if routes == [] then []
    else
      var r := routes[|routes| - 1];
      var before := Matching(routes[..|routes| - 1], topic);
      assert forall x :: x in routes[..|routes| - 1] ==> x in routes;
      if r.topic == topic then before + [r] else before
  }

  /** Registering one more route extends the matches at the end, and only when its topic matches. */
  lemma MatchingAppend(routes: seq<Route>, r: Route, topic: string)
    ensures Matching(routes + [r], topic) == Matching(routes, topic) + (if r.topic == topic then [r] else [])
  {
  }

  /**
   * Routing runs, in order, the action of every matching route; it raises
   * exactly when some matching route has no action, and then it has run
   * the actions of the matching routes before the first such one.
   */
  lemma {:induction false} DispatchRunsMatchingActions(routes: seq<Route>, topic: string, msg: string)
    ensures var d := Dispatch(routes, topic, msg);
      var ms := Matching(routes, topic);
      && (forall i :: 0 <= i < |d.invoked| ==>
            i < |ms| && ms[i].action.Some? && d.invoked[i] == Invoked(ms[i].action.value, msg))
      && (d.ok ==> |d.invoked| == |ms|)
      && (!d.ok ==> |d.invoked| < |ms| && ms[|d.invoked|].action.None?)
      && (d.ok <==> forall i :: 0 <= i < |ms| ==> ms[i].action.Some?)
    decreases |routes|
  {
    if routes != [] {
      DispatchRunsMatchingActions(routes[..|routes| - 1], topic, msg);
    }
  }

  /** Once the scan has raised on a prefix, the routes after it change nothing. */
  lemma {:induction false} RaiseEndsScan(routes: seq<Route>, k: nat, topic: string, msg: string)
    requires k <= |routes|
    requires !Dispatch(routes[..k], topic, msg).ok
    ensures Dispatch(routes, topic, msg) == Dispatch(routes[..k], topic, msg)
    decreases |routes| - k
  {
    if k < |routes| {
      var init := routes[..|routes| - 1];
      assert init[..k] == routes[..k];
      RaiseEndsScan(init, k, topic, msg);
    } else {
      assert routes[..k] == routes;
    }
  }

  /** A message on a topic no route has is a silent no-op. */
  lemma {:induction false} UnmatchedTopicIsIgnored(routes: seq<Route>, topic: string, msg: string)
    requires forall i :: 0 <= i < |routes| ==> routes[i].topic != topic
    ensures Dispatch(routes, topic, msg) == Delivery([], true)
    decreases |routes|
  {
    if routes != [] {
      UnmatchedTopicIsIgnored(routes[..|routes| - 1], topic, msg);
    }
  }

  /** When exactly one route has the topic and it holds action `a`, `a` runs once, with the message. */
  lemma {:induction false} UniqueRouteRunsOnce(routes: seq<Route>, j: nat, a: ActionId, topic: string, msg: string)
    requires j < |routes| && routes[j] == Route(topic, Some(a))
    requires forall i :: 0 <= i < |routes| && i != j ==> routes[i].topic != topic
    ensures Dispatch(routes, topic, msg) == Delivery([Invoked(a, msg)], true)
    decreases |routes|
  {
    var init := routes[..|routes| - 1];
    if j == |routes| - 1 {
      UnmatchedTopicIsIgnored(init, topic, msg);
    } else {
      UniqueRouteRunsOnce(init, j, a, topic, msg);
    }
  }
}
