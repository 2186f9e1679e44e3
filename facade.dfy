/**
 * The client facade: each operation is one request (verb, path, body)
 * handed to the Sender exactly once, and the Sender's reply is handed
 * back unchanged. Paths carry the resource id verbatim.
 */
module Facade {
  import opened Wrappers
  import opened Text
  import opened Decimal
  import opened Forms
  import opened Sender
  import Percent
  import Batch

  /** The client's operations, one per endpoint, with their arguments. */
  datatype Op =
    | GetPing
    | GetWatchdogs
    | GetWatchdog(watchdogId: string)
    | PostWatchdogHeartbeat(watchdogId: string)
    | GetMachines
    | GetMachine(machineId: string)
    | PostMachineSample(machineId: string, sample: MachineSample)
    | PostMachineText(machineId: string, text: string)
    | GetMetrics
    | GetMetric(metricId: string)
    | PostMetricInc(metricId: string, value: int64)
    | PostMetricSet(metricId: string, value: int64)
    | PostMetricValues(metricId: string, values: seq<int64>)

  /** The request an operation sends. */
  function RequestFor(op: Op): (r: Request)
    ensures r.verb == "GET" || r.verb == "POST"
  {
    match op
    case GetPing => Request("GET", "ping", "")
    case GetWatchdogs => Request("GET", "watchdogs", "")
    case GetWatchdog(id) => Request("GET", "watchdog/" + id, "")
    case PostWatchdogHeartbeat(id) => Request("POST", "watchdog/" + id + "/heartbeat", "")
    case GetMachines => Request("GET", "machines", "")
    case GetMachine(id) => Request("GET", "machine/" + id, "")
    case PostMachineSample(id, s) => Request("POST", "machine/" + id + "/sample", SampleBody(s))
    case PostMachineText(id, t) => Request("POST", "machine/" + id + "/text", TextBody(t))
    case GetMetrics => Request("GET", "metrics", "")
    case GetMetric(id) => Request("GET", "metric/" + id, "")
    case PostMetricInc(id, v) => Request("POST", "metric/" + id + "/inc", ValueBody(v))
    case PostMetricSet(id, v) => Request("POST", "metric/" + id + "/set", ValueBody(v))
    case PostMetricValues(id, vs) => Request("POST", "metric/" + id + "/values", ValuesBody(vs))
  }

  /** An endpoint with the id it addresses, without the request's payload. */
  datatype Route =
    | Ping | Watchdogs | Watchdog(id: string) | Heartbeat(id: string)
    | Machines | Machine(id: string) | Sample(id: string) | MachineText(id: string)
    | Metrics | Metric(id: string) | Inc(id: string) | Set(id: string) | Values(id: string)

  function RouteOf(op: Op): Route
  {
    match op
    case GetPing => Ping
    case GetWatchdogs => Watchdogs
    case GetWatchdog(id) => Watchdog(id)
    case PostWatchdogHeartbeat(id) => Heartbeat(id)
    case GetMachines => Machines
    case GetMachine(id) => Machine(id)
    case PostMachineSample(id, _) => Sample(id)
    case PostMachineText(id, _) => MachineText(id)
    case GetMetrics => Metrics
    case GetMetric(id) => Metric(id)
    case PostMetricInc(id, _) => Inc(id)
    case PostMetricSet(id, _) => Set(id)
    case PostMetricValues(id, _) => Values(id)
  }

  predicate HasPrefix(s: string, p: string)
  {
    |p| <= |s| && s[..|p|] == p
  }

  predicate HasSuffix(s: string, p: string)
  {
    |p| <= |s| && s[|s| - |p|..] == p
  }

  /** The id between a fixed prefix and a fixed suffix, if the path has both. */
  function Between(path: string, prefix: string, suffix: string): Option<string>
  {
    if |prefix| + |suffix| <= |path| && HasPrefix(path, prefix) && HasSuffix(path, suffix)
    then Some(path[|prefix|..|path| - |suffix|])
    else None
  }

  /** Which endpoint a verb and path address, read the way the service would route them. */
  function ParseRoute(verb: string, path: string): Option<Route>
  {
    if verb == "GET" then
      if path == "ping" then Some(Ping)
      else if path == "watchdogs" then Some(Watchdogs)
      else if path == "machines" then Some(Machines)
      else if path == "metrics" then Some(Metrics)
      else if HasPrefix(path, "watchdog/") then Some(Watchdog(path[9..]))
      else if HasPrefix(path, "machine/") then Some(Machine(path[8..]))
      else if HasPrefix(path, "metric/") then Some(Metric(path[7..]))
      else None
    else if verb == "POST" then
      match Between(path, "watchdog/", "/heartbeat")
      case Some(id) => Some(Heartbeat(id))
      case None =>
      match Between(path, "machine/", "/sample")
      case Some(id) => Some(Sample(id))
      case None =>
      match Between(path, "machine/", "/text")
      case Some(id) => Some(MachineText(id))
      case None =>
      match Between(path, "metric/", "/inc")
      case Some(id) => Some(Inc(id))
      case None =>
      match Between(path, "metric/", "/set")
      case Some(id) => Some(Set(id))
      case None =>
      match Between(path, "metric/", "/values")
      case Some(id) => Some(Values(id))
      case None => None
    else None
  }

  lemma BetweenOf(prefix: string, id: string, suffix: string)
    ensures Between(prefix + id + suffix, prefix, suffix) == Some(id)
  {
    var p := prefix + id + suffix;
    assert p[..|prefix|] == prefix;
    assert p[|p| - |suffix|..] == suffix;
    assert p[|prefix|..|p| - |suffix|] == id;
  }

  lemma NotBetween(prefix: string, id: string, suffix: string, other: string)
    requires |other| <= |suffix| && suffix[|suffix| - |other|..] != other
    ensures Between(prefix + id + suffix, prefix, other) == None
  {
    var p := prefix + id + suffix;
    assert p[|p| - |other|..] == suffix[|suffix| - |other|..];
  }

  lemma NotBetweenLonger(prefix: string, id: string, suffix: string, other: string)
    requires |suffix| <= |other| && other[|other| - |suffix|..] != suffix
    ensures Between(prefix + id + suffix, prefix, other) == None
  {
  }

  lemma NotPrefix(prefix: string, id: string, other: string, k: nat)
    requires k < |prefix| && k < |other| && prefix[k] != other[k]
    ensures !HasPrefix(prefix + id, other)
  {
    assert (prefix + id)[k] == prefix[k];
  }

  lemma ParseRouteOfGet(op: Op)
    requires RequestFor(op).verb == "GET"
    ensures ParseRoute(RequestFor(op).verb, RequestFor(op).path) == Some(RouteOf(op))
  {
    var rq := RequestFor(op);
    match op
    case GetWatchdog(id) =>
      assert rq.path[8] == '/';
      assert rq.path[..9] == "watchdog/" && rq.path[9..] == id;
    case GetMachine(id) =>
      NotPrefix("machine/", id, "watchdog/", 0);
      assert rq.path[7] == '/';
      assert rq.path[..8] == "machine/" && rq.path[8..] == id;
    case GetMetric(id) =>
      NotPrefix("metric/", id, "watchdog/", 0);
      NotPrefix("metric/", id, "machine/", 1);
      assert rq.path[6] == '/';
      assert rq.path[..7] == "metric/" && rq.path[7..] == id;
    case _ =>
  }

  lemma RouteHeartbeat(id: string)
    ensures ParseRoute("POST", "watchdog/" + id + "/heartbeat") == Some(Heartbeat(id))
  {
    BetweenOf("watchdog/", id, "/heartbeat");
  }

  lemma RouteSample(id: string)
    ensures ParseRoute("POST", "machine/" + id + "/sample") == Some(Sample(id))
  {
    NotBetweenLonger("machine/", id, "/sample", "/heartbeat");
    BetweenOf("machine/", id, "/sample");
  }

  lemma RouteText(id: string)
    ensures ParseRoute("POST", "machine/" + id + "/text") == Some(MachineText(id))
  {
    NotBetweenLonger("machine/", id, "/text", "/heartbeat");
    NotBetweenLonger("machine/", id, "/text", "/sample");
    BetweenOf("machine/", id, "/text");
  }

  lemma RouteInc(id: string)
    ensures ParseRoute("POST", "metric/" + id + "/inc") == Some(Inc(id))
  {
    NotBetweenLonger("metric/", id, "/inc", "/heartbeat");
    NotBetweenLonger("metric/", id, "/inc", "/sample");
    NotBetweenLonger("metric/", id, "/inc", "/text");
    BetweenOf("metric/", id, "/inc");
  }

  lemma RouteSet(id: string)
    ensures ParseRoute("POST", "metric/" + id + "/set") == Some(Set(id))
  {
    NotBetweenLonger("metric/", id, "/set", "/heartbeat");
    NotBetweenLonger("metric/", id, "/set", "/sample");
    NotBetweenLonger("metric/", id, "/set", "/text");
    NotBetween("metric/", id, "/set", "/inc");
    BetweenOf("metric/", id, "/set");
  }

  lemma RouteValues(id: string)
    ensures ParseRoute("POST", "metric/" + id + "/values") == Some(Values(id))
  {
    NotBetweenLonger("metric/", id, "/values", "/heartbeat");
    NotBetween("metric/", id, "/values", "/sample");
    NotBetween("metric/", id, "/values", "/text");
    NotBetween("metric/", id, "/values", "/inc");
    NotBetween("metric/", id, "/values", "/set");
    BetweenOf("metric/", id, "/values");
  }

  lemma ParseRouteOfPost(op: Op)
    requires RequestFor(op).verb == "POST"
    ensures ParseRoute(RequestFor(op).verb, RequestFor(op).path) == Some(RouteOf(op))
  {
    var path := RequestFor(op).path;
    match op
    case PostWatchdogHeartbeat(id) =>
      assert path == "watchdog/" + id + "/heartbeat";
      RouteHeartbeat(id);
    case PostMachineSample(id, _) =>
      assert path == "machine/" + id + "/sample";
      RouteSample(id);
    case PostMachineText(id, _) =>
      assert path == "machine/" + id + "/text";
      RouteText(id);
    case PostMetricInc(id, _) =>
      assert path == "metric/" + id + "/inc";
      RouteInc(id);
    case PostMetricSet(id, _) =>
      assert path == "metric/" + id + "/set";
      RouteSet(id);
    case PostMetricValues(id, _) =>
      assert path == "metric/" + id + "/values";
      RouteValues(id);
  }

  /**
   * Every request names its endpoint unambiguously, and the id comes back
   * exactly as it was given: the path carries it verbatim.
   */
  lemma ParseRouteOf(op: Op)
    ensures ParseRoute(RequestFor(op).verb, RequestFor(op).path) == Some(RouteOf(op))
  {
    if RequestFor(op).verb == "GET" {
      ParseRouteOfGet(op);
    } else {
      ParseRouteOfPost(op);
    }
  }

  lemma WriteBodyNonEmpty(op: Op)
    requires op.PostMachineSample? || op.PostMachineText? || op.PostMetricInc?
      || op.PostMetricSet? || op.PostMetricValues?
    ensures RequestFor(op).body != ""
  {
    match op
    case PostMachineSample(id, smp) =>
      SampleLineWithForm(id, smp);
    case PostMachineText(id, t) =>
      PostLineWithForm("machine/" + id + "/text", [("text", t)], op);
    case PostMetricInc(id, v) =>
      PostLineWithForm("metric/" + id + "/inc", [("value", IntToString(v))], op);
    case PostMetricSet(id, v) =>
      PostLineWithForm("metric/" + id + "/set", [("value", IntToString(v))], op);
    case PostMetricValues(id, vs) =>
      PostLineWithForm("metric/" + id + "/values", [("values", Batch.Compact(vs))], op);
  }

  /** The reads and the heartbeat send no body; every other write sends one. */
  lemma NoBodyOf(op: Op)
    ensures op.GetPing? || op.GetWatchdogs? || op.GetWatchdog? || op.PostWatchdogHeartbeat?
      || op.GetMachines? || op.GetMachine? || op.GetMetrics? || op.GetMetric?
      <==> RequestFor(op).body == ""
  {
    if op.PostMachineSample? || op.PostMachineText? || op.PostMetricInc?
      || op.PostMetricSet? || op.PostMetricValues? {
      WriteBodyNonEmpty(op);
    }
  }

  lemma SampleBodySent(id: string, s: MachineSample)
    ensures RequestFor(PostMachineSample(id, s)).body == SampleBody(s)
  {
  }

  lemma SampleBodyOf(id: string, s: MachineSample)
    ensures DecodeSample(RequestFor(PostMachineSample(id, s)).body) == Some(s)
  {
    SampleBodySent(id, s);
    SampleBodyRoundTrip(s);
  }

  lemma TextBodyOf(id: string, t: string)
    ensures var b := RequestFor(PostMachineText(id, t)).body;
      |b| >= 5 && b[..5] == "text=" && Percent.Unescape(b[5..]) == Some(Percent.Utf8String(t))
  {
    assert RequestFor(PostMachineText(id, t)).body == TextBody(t);
    TextBodyOneField(t);
  }

  lemma ValueBodyOf(op: Op)
    requires op.PostMetricInc? || op.PostMetricSet?
    ensures ParseForm(RequestFor(op).body, ["value"]) == Some([IntToString(op.value)])
  {
    assert RequestFor(op).body == ValueBody(op.value);
    ValueBodyRoundTrip(op.value);
  }

  lemma ValuesBodyOf(id: string, vs: seq<int64>)
    ensures match ParseForm(RequestFor(PostMetricValues(id, vs)).body, ["values"])
      case Some(v) => |v| == 1 && Batch.DecodeCompact(v[0]) == Some(Batch.Sort(vs))
      case None => false
  {
    assert RequestFor(PostMetricValues(id, vs)).body == ValuesBody(vs);
    ValuesBodyRoundTrip(vs);
  }

  /** Every write's body carries its argument back out. */
  lemma BodyOf(op: Op)
    ensures op.PostMachineSample? ==> DecodeSample(RequestFor(op).body) == Some(op.sample)
    ensures op.PostMachineText? ==>
      var b := RequestFor(op).body;
      |b| >= 5 && b[..5] == "text=" && Percent.Unescape(b[5..]) == Some(Percent.Utf8String(op.text))
    ensures op.PostMetricInc? || op.PostMetricSet? ==>
      ParseForm(RequestFor(op).body, ["value"]) == Some([IntToString(op.value)])
    ensures op.PostMetricValues? ==>
      match ParseForm(RequestFor(op).body, ["values"])
      case Some(v) => |v| == 1 && Batch.DecodeCompact(v[0]) == Some(Batch.Sort(op.values))
      case None => false
  {
    match op
    case PostMachineSample(id, s) => SampleBodyOf(id, s);
    case PostMachineText(id, t) => TextBodyOf(id, t);
    case PostMetricInc(_, _) => ValueBodyOf(op);
    case PostMetricSet(_, _) => ValueBodyOf(op);
    case PostMetricValues(id, vs) => ValuesBodyOf(id, vs);
    case _ =>
  }

  predicate NoTrailingSpace(s: string)
  {
    s == [] || !IsSpace(s[|s| - 1])
  }

  lemma IdPathEnd(prefix: string, id: string)
    requires prefix == "watchdog/" || prefix == "machine/" || prefix == "metric/"
    requires NoTrailingSpace(id)
    ensures NoTrailingSpace(prefix + id)
  {
    if id != [] {
      assert (prefix + id)[|prefix + id| - 1] == id[|id| - 1];
    }
  }

  /** No request path ends in white space, given ids that do not. */
  lemma PathEnd(op: Op)
    requires op.GetWatchdog? ==> NoTrailingSpace(op.watchdogId)
    requires op.GetMachine? ==> NoTrailingSpace(op.machineId)
    requires op.GetMetric? ==> NoTrailingSpace(op.metricId)
    ensures |RequestFor(op).path| >= 1 && NoTrailingSpace(RequestFor(op).path)
  {
    var path := RequestFor(op).path;
    match op
    case GetWatchdog(w) =>
      assert path == "watchdog/" + w;
      IdPathEnd("watchdog/", w);
    case GetMachine(m) =>
      assert path == "machine/" + m;
      IdPathEnd("machine/", m);
    case GetMetric(m) =>
      assert path == "metric/" + m;
      IdPathEnd("metric/", m);
    case _ =>
  }

  /** A call without a body is logged as verb and path, the trailing blank trimmed off. */
  lemma LineWithoutBody(op: Op)
    requires RequestFor(op).body == ""
    requires op.GetWatchdog? ==> NoTrailingSpace(op.watchdogId)
    requires op.GetMachine? ==> NoTrailingSpace(op.machineId)
    requires op.GetMetric? ==> NoTrailingSpace(op.metricId)
    ensures CallLine(RequestFor(op)) == RequestFor(op).verb + " " + RequestFor(op).path
  {
    var rq := RequestFor(op);
    PathEnd(op);
    CallLineNoBody(rq.verb, rq.path);
  }

  lemma LineWithForm(verb: string, path: string, pairs: seq<(string, string)>)
    requires |verb| >= 1 && !IsSpace(verb[0]) && |pairs| >= 1
    ensures CallLine(Request(verb, path, FormBody(pairs))) == verb + " " + path + " " + FormBody(pairs)
  {
    FormBodyEnd(pairs);
    CallLineWithBody(verb, path, FormBody(pairs));
  }

  /** A call with a body is logged as verb, path and body: a form never ends in white space. */
  lemma LineWithBody(op: Op)
    requires RequestFor(op).body != ""
    ensures CallLine(RequestFor(op)) ==
      RequestFor(op).verb + " " + RequestFor(op).path + " " + RequestFor(op).body
  {
    match op
    case PostMachineSample(id, smp) =>
      SampleLineWithForm(id, smp);
    case PostMachineText(id, t) =>
      PostLineWithForm("machine/" + id + "/text", [("text", t)], op);
    case PostMetricInc(id, v) =>
      PostLineWithForm("metric/" + id + "/inc", [("value", IntToString(v))], op);
    case PostMetricSet(id, v) =>
      PostLineWithForm("metric/" + id + "/set", [("value", IntToString(v))], op);
    case PostMetricValues(id, vs) =>
      PostLineWithForm("metric/" + id + "/values", [("values", Batch.Compact(vs))], op);
    case _ =>
  }

  lemma PostLineWithForm(path: string, pairs: seq<(string, string)>, op: Op)
    requires |pairs| >= 1 && RequestFor(op) == Request("POST", path, FormBody(pairs))
    ensures RequestFor(op).body != ""
    ensures CallLine(RequestFor(op)) ==
      RequestFor(op).verb + " " + RequestFor(op).path + " " + RequestFor(op).body
  {
    FormBodyEnd(pairs);
    LineWithForm("POST", path, pairs);
  }

  lemma SampleLineWithForm(id: string, smp: MachineSample)
    ensures RequestFor(PostMachineSample(id, smp)).body != ""
    ensures var rq := RequestFor(PostMachineSample(id, smp));
      CallLine(rq) == rq.verb + " " + rq.path + " " + rq.body
  {
    var pairs := Zip(SampleKeys, SampleValues(smp));
    var rq := Request("POST", "machine/" + id + "/sample", FormBody(pairs));
    assert RequestFor(PostMachineSample(id, smp)) == rq;
    FormBodyEnd(pairs);
    LineWithForm(rq.verb, rq.path, pairs);
  }

  /**
   * The logged line is verb, path and body separated by single blanks; a
   * call without a body loses only its trailing blank. The fake sender's
   * trim would also cut white space off the end of an id that closes a
   * path, so such ids are excluded.
   */
  lemma LineOf(op: Op)
    requires op.GetWatchdog? ==> NoTrailingSpace(op.watchdogId)
    requires op.GetMachine? ==> NoTrailingSpace(op.machineId)
    requires op.GetMetric? ==> NoTrailingSpace(op.metricId)
    ensures var rq := RequestFor(op);
      CallLine(rq) == if rq.body == "" then rq.verb + " " + rq.path else rq.verb + " " + rq.path + " " + rq.body
  {
    if RequestFor(op).body == "" {
      LineWithoutBody(op);
    } else {
      LineWithBody(op);
    }
  }

  /** The client; it holds nothing but its Sender. */
  class Api {
    const sender: FakeSender

    constructor (sender: FakeSender)
      ensures this.sender == sender
    {
      this.sender := sender;
    }

    /** Performs op: exactly one Send, whose reply is returned unchanged. */
    method Call(op: Op) returns (data: seq<Percent.byte>, err: Option<string>)
      modifies sender
      ensures (sender.Snapshot(), Reply(data, err)) == Step(old(sender.Snapshot()), RequestFor(op))
      ensures old(sender.responses) != [] ==>
        data == old(sender.responses)[0].data && err == old(sender.responses)[0].err
    {
      var rq := RequestFor(op);
      data, err := sender.Send(rq.verb, rq.path, rq.body);
    }
  }

  /**
   * One case of the client's test: a fresh fake sender with one queued
   * reply, one operation. Exactly one line is logged, the queue ends up
   * empty and the reply, error included, comes back as it was queued.
   */
  method RunCase(op: Op, reply: Reply) returns (calls: seq<string>, pending: nat, data: seq<Percent.byte>, err: Option<string>)
    ensures calls == [CallLine(RequestFor(op))]
    ensures pending == 0
    ensures data == reply.data && err == reply.err
  {
    var sender := new FakeSender();
    var api := new Api(sender);
    sender.Enqueue(reply);
    data, err := api.Call(op);
    calls, pending := sender.calls, |sender.responses|;
  }

  /** With nothing queued the operation fails with the no-response error naming verb and path. */
  method RunUnanswered(op: Op) returns (calls: seq<string>, data: seq<Percent.byte>, err: Option<string>)
    ensures calls == [CallLine(RequestFor(op))]
    ensures data == [] && err == Some("no response for " + RequestFor(op).verb + " " + RequestFor(op).path)
  {
    var sender := new FakeSender();
    var api := new Api(sender);
    data, err := api.Call(op);
    calls := sender.calls;
  }
}
