/**
 * The lookups of cli/utils.go against the Kea management API: the subnet
 * id of a subnet, the app id of an app instance and the log id of a named
 * log target, and the Stage 2 region test.
 *
 * Each lookup points the caller's URL at an API path, sends one request,
 * checks the reply and picks an id out of the decoded JSON. The server is a
 * function from the request (path and query) to its Response, and JSON
 * decoding is a parameter; a Go run-time panic (indexing an empty list) is
 * the outcome Panic.
 */
module Kea {
  import opened Wrappers
  import opened Http
  import Decimal

  const STAGE2_PREFIX := "S2"

  /** isStage2: the region name starts with "S2". */
  function IsStage2(region: string): (r: bool)
    ensures r <==> |region| >= 2 && region[0] == 'S' && region[1] == '2'
  {
    STAGE2_PREFIX <= region
  }

  datatype SubnetItem = SubnetItem(subnetID: int)
  datatype KeaSubnet = KeaSubnet(total: int, items: seq<SubnetItem>)

  datatype AppItem = AppItem(appName: string, appID: int)
  datatype KeaApp = KeaApp(total: int, items: seq<AppItem>)

  datatype LogTarget = LogTarget(logId: int, logName: string)
  datatype Daemon = Daemon(logTargets: seq<LogTarget>)
  datatype KeaLogs = KeaLogs(name: string, daemons: seq<Daemon>)

  datatype Lookup =
    | Found(id: int)
    | Error(message: string)
    | Panic                    // index out of range

  const NO_SUBNET := "no results found for subnet"
  const NO_APP := "no results found for app instance"
  const NO_LOG := "no results found for log"
  const LOG_ID_FAILED := "error looking up log id"

  /** The error texts a lookup uses when the request fails, the status is not
      200, the body cannot be read, the body is empty, or decoding fails. */
  datatype Messages = Messages(transport: string, status: string, read: string, empty: string, decode: string)

  const SUBNET_MESSAGES := Messages("error looking up subnet ID", "error looking up subnet ID",
    "error looking up subnet ID", "error looking up subnet ID", "error looking up subnet ID")
  const APP_MESSAGES := Messages("error looking up app ID", "error looking up app ID",
    "error looking up app ID", "error looking up app ID", "error looking up app ID")
  const LOG_MESSAGES := Messages("error looking up app ID", "error looking up app details",
    "error parsing app details", "unexpected empty response", "error parsing response")

  /** The reply checks every lookup makes, in order, before decoding. */
  function Body(resp: Response, msgs: Messages): (r: Result<seq<byte>, string>)
    ensures r.Success? <==> resp.Reply? && resp.status == STATUS_OK && resp.body.Success? && |resp.body.value| > 0
    ensures r.Success? ==> r.value == resp.body.value
  {
    match resp
    case Unreachable(_) => Failure(msgs.transport)
    case Reply(status, body) =>
      if status != STATUS_OK then Failure(msgs.status)
      else match body
        case Failure(_) => Failure(msgs.read)
        case Success(bytes) =>
          if |bytes| == 0 then Failure(msgs.empty) else Success(bytes)
  }

  function Decoded<T>(resp: Response, msgs: Messages, decode: seq<byte> -> Option<T>): Result<T, string>
  {
    match Body(resp, msgs)
    case Failure(msg) => Failure(msg)
    case Success(bytes) =>
      match decode(bytes)
      case None => Failure(msgs.decode)
      case Some(v) => Success(v)
  }

  /** The selection of getSubnetID: exactly one result. A total of 1 with an
      empty item list panics, as indexing it does. */
  function SelectSubnet(s: KeaSubnet): (r: Lookup)
    ensures r.Found? <==> s.total == 1 && |s.items| >= 1
    ensures r.Found? ==> r.id == s.items[0].subnetID
    ensures s.total != 1 ==> r == Error(NO_SUBNET)
    ensures r.Panic? <==> s.total == 1 && |s.items| == 0
  {
    if s.total == 1 then
      if |s.items| > 0 then Found(s.items[0].subnetID) else Panic
    else Error(NO_SUBNET)
  }

  /** Index of the first item named `name`; |items| when there is none. */
  function FirstNamed(items: seq<AppItem>, name: string): (k: nat)
    ensures k <= |items|
    ensures k < |items| ==> items[k].appName == name
    ensures forall j :: 0 <= j < k ==> items[j].appName != name
  {
    if items == [] then 0
    else if items[0].appName == name then 0
    else 1 + FirstNamed(items[1..], name)
  }

  /** The selection of getAppID, as a specification. */
  function SelectApp(a: KeaApp, name: string): Lookup
  {
    var k := FirstNamed(a.items, name);
    if a.total >= 1 && k < |a.items| then Found(a.items[k].appID) else Error(NO_APP)
  }

  /** Index of the first daemon that stops the scan of getLogID: one with no
      log target (reading its first target panics) or whose first target is
      named `name`; |daemons| when there is none. */
  function FirstStop(daemons: seq<Daemon>, name: string): (k: nat)
    ensures k <= |daemons|
    ensures k < |daemons| ==>
      |daemons[k].logTargets| == 0 || daemons[k].logTargets[0].logName == name
    ensures forall j :: 0 <= j < k ==>
      |daemons[j].logTargets| > 0 && daemons[j].logTargets[0].logName != name
  {
    if daemons == [] then 0
    else if |daemons[0].logTargets| == 0 || daemons[0].logTargets[0].logName == name then 0
    else 1 + FirstStop(daemons[1..], name)
  }

  /** The selection of getLogID, as a specification. */
  function SelectLog(l: KeaLogs, name: string): Lookup
  {
    var k := FirstStop(l.daemons, name);
    if k == |l.daemons| then Error(NO_LOG)
    else if |l.daemons[k].logTargets| == 0 then Panic
    else Found(l.daemons[k].logTargets[0].logId)
  }

  /** The loop of getAppID. */
  method FindApp(a: KeaApp, name: string) returns (r: Lookup)
    ensures r == SelectApp(a, name)
  {
    if a.total >= 1 {
      var i := 0;
      while i < |a.items|
        invariant 0 <= i <= |a.items|
        invariant forall j :: 0 <= j < i ==> a.items[j].appName != name
      {
        if a.items[i].appName == name {
          return Found(a.items[i].appID);
        }
        i := i + 1;
      }
    }
    return Error(NO_APP);
  }

  /** The loop of getLogID. */
  method FindLog(l: KeaLogs, name: string) returns (r: Lookup)
    ensures r == SelectLog(l, name)
  {
    var i := 0;
    while i < |l.daemons|
      invariant 0 <= i <= |l.daemons|
      invariant forall j :: 0 <= j < i ==>
        |l.daemons[j].logTargets| > 0 && l.daemons[j].logTargets[0].logName != name
    {
      var targets := l.daemons[i].logTargets;
      if |targets| == 0 {
        return Panic;
      }
      if targets[0].logName == name {
        return Found(targets[0].logId);
      }
      i := i + 1;
    }
    return Error(NO_LOG);
  }

  /** What one lookup request yields, from the reply onwards. */
  function SubnetOutcome(resp: Response, decode: seq<byte> -> Option<KeaSubnet>): Lookup
  {
    match Decoded(resp, SUBNET_MESSAGES, decode)
    case Failure(msg) => Error(msg)
    case Success(s) => SelectSubnet(s)
  }

  function AppOutcome(resp: Response, decode: seq<byte> -> Option<KeaApp>, name: string): Lookup
  {
    match Decoded(resp, APP_MESSAGES, decode)
    case Failure(msg) => Error(msg)
    case Success(a) => SelectApp(a, name)
  }

  function LogOutcome(resp: Response, decode: seq<byte> -> Option<KeaLogs>, name: string): Lookup
  {
    match Decoded(resp, LOG_MESSAGES, decode)
    case Failure(msg) => Error(msg)
    case Success(l) => SelectLog(l, name)
  }

  /** The request a URL describes: its path and its decoded query. */
  datatype Request = Request(path: string, query: map<string, seq<string>>)

  const SUBNETS_PATH := "/api/subnets"
  const APPS_PATH := "/api/apps"

  function AppPath(appID: int): string { APPS_PATH + "/" + Decimal.Format(appID) }

  /** The caller's *url.URL, of which the lookups change the path and the
      query. */
  class Url {
    var path: string
    var query: map<string, seq<string>>

    constructor (path0: string, query0: map<string, seq<string>>)
      ensures path == path0 && query == query0
    {
      path := path0;
      query := query0;
    }

    function Target(): Request
      reads this
    {
      Request(path, query)
    }
  }

  /** getSubnetID */
  method GetSubnetID(subnet: string, url: Url, server: Request -> Response,
                     decode: seq<byte> -> Option<KeaSubnet>) returns (r: Lookup)
    modifies url
    ensures url.path == SUBNETS_PATH && url.query == old(url.query)["text" := [subnet]]
    ensures r == SubnetOutcome(server(url.Target()), decode)
  {
    url.path := SUBNETS_PATH;
    url.query := url.query["text" := [subnet]];
    var resp := server(url.Target());
    match Decoded(resp, SUBNET_MESSAGES, decode) {
      case Failure(msg) => r := Error(msg);
      case Success(s) => r := SelectSubnet(s);
    }
  }

  /** getAppID */
  method GetAppID(appname: string, url: Url, server: Request -> Response,
                  decode: seq<byte> -> Option<KeaApp>) returns (r: Lookup)
    modifies url
    ensures url.path == APPS_PATH && url.query == old(url.query)["limit" := ["25"]]
    ensures r == AppOutcome(server(url.Target()), decode, appname)
  {
    url.path := APPS_PATH;
    url.query := url.query["limit" := ["25"]];
    var resp := server(url.Target());
    match Decoded(resp, APP_MESSAGES, decode) {
      case Failure(msg) => r := Error(msg);
      case Success(a) => r := FindApp(a, appname);
    }
  }

  /** getLogID: the app id first, then the app's details at
      /api/apps/<id>, keeping the query getAppID left on the URL. */
  method GetLogID(logname: string, appname: string, url: Url, server: Request -> Response,
                  decodeApp: seq<byte> -> Option<KeaApp>, decodeLogs: seq<byte> -> Option<KeaLogs>)
    returns (r: Lookup)
    modifies url
    ensures url.query == old(url.query)["limit" := ["25"]]
    ensures var app := AppOutcome(server(Request(APPS_PATH, url.query)), decodeApp, appname);
      if app.Found? then
        url.path == AppPath(app.id) && r == LogOutcome(server(url.Target()), decodeLogs, logname)
      else
        url.path == APPS_PATH && r == Error(LOG_ID_FAILED)
  {
    var app := GetAppID(appname, url, server, decodeApp);
    if !app.Found? {
      return Error(LOG_ID_FAILED);
    }
    url.path := AppPath(app.id);
    var resp := server(url.Target());
    match Decoded(resp, LOG_MESSAGES, decodeLogs) {
      case Failure(msg) => r := Error(msg);
      case Success(l) => r := FindLog(l, logname);
    }
  }
}

/** What the lookups of cli/utils.go guarantee. */
module KeaProperties {
  import opened Wrappers
  import opened Http
  import Decimal
  import opened Kea

  /** getAppID answers with the id of the first item, in order, named
      `name`, once the reported total is at least one. */
  lemma AppLookupIsFirstMatch(a: KeaApp, name: string, i: int)
    requires a.total >= 1
    requires 0 <= i < |a.items| && a.items[i].appName == name
    requires forall j :: 0 <= j < i ==> a.items[j].appName != name
    ensures SelectApp(a, name) == Found(a.items[i].appID)
  {
  }

  /** Conversely, every id it answers with is that of such a first match,
      and otherwise the error is "no results found for app instance": also
      when the total is below one, whatever the items hold. */
  lemma AppLookupOutcomes(a: KeaApp, name: string)
    ensures SelectApp(a, name).Found? ==>
      exists i :: 0 <= i < |a.items| && a.items[i].appName == name && a.items[i].appID == SelectApp(a, name).id
        && forall j :: 0 <= j < i ==> a.items[j].appName != name
    ensures !SelectApp(a, name).Found? ==> SelectApp(a, name) == Error(NO_APP)
    ensures a.total < 1 ==> SelectApp(a, name) == Error(NO_APP)
    ensures (forall i :: 0 <= i < |a.items| ==> a.items[i].appName != name) ==> SelectApp(a, name) == Error(NO_APP)
  {
    if SelectApp(a, name).Found? {
      var k := FirstNamed(a.items, name);
      assert a.items[k].appName == name;
    }
  }

  /** Matches after the first one are never looked at: more items at the end
      do not change a found id. */
  lemma LaterMatchesIgnored(total: int, items: seq<AppItem>, more: seq<AppItem>, name: string)
    requires SelectApp(KeaApp(total, items), name).Found?
    ensures SelectApp(KeaApp(total, items + more), name) == SelectApp(KeaApp(total, items), name)
  {
    var k := FirstNamed(items, name);
    var k' := FirstNamed(items + more, name);
    assert (items + more)[k] == items[k];
  }

  /** Only each daemon's first log target is read: two decoded replies whose
      daemons agree on having a first target and on what it is give the same
      answer, whatever else their targets hold. */
  lemma {:induction false} OnlyFirstTargetRead(d1: seq<Daemon>, d2: seq<Daemon>, name: string)
    requires |d1| == |d2|
    requires forall i :: 0 <= i < |d1| ==>
      (|d1[i].logTargets| == 0 <==> |d2[i].logTargets| == 0)
      && (|d1[i].logTargets| > 0 ==> d1[i].logTargets[0] == d2[i].logTargets[0])
    ensures FirstStop(d1, name) == FirstStop(d2, name)
    ensures forall n1, n2 :: SelectLog(KeaLogs(n1, d1), name) == SelectLog(KeaLogs(n2, d2), name)
  {
    if d1 != [] {
      OnlyFirstTargetRead(d1[1..], d2[1..], name);
    }
  }

  /** getLogID answers with the id of the first daemon's first target named
      `name`, panics at a daemon without targets met before that, and
      otherwise fails with "no results found for log". */
  lemma LogLookupOutcomes(l: KeaLogs, name: string)
    ensures SelectLog(l, name).Found? ==>
      exists i :: 0 <= i < |l.daemons| && |l.daemons[i].logTargets| > 0
        && l.daemons[i].logTargets[0].logName == name
        && l.daemons[i].logTargets[0].logId == SelectLog(l, name).id
        && forall j :: 0 <= j < i ==> |l.daemons[j].logTargets| > 0 && l.daemons[j].logTargets[0].logName != name
    ensures SelectLog(l, name).Error? ==>
      && SelectLog(l, name).message == NO_LOG
      && forall i :: 0 <= i < |l.daemons| ==> |l.daemons[i].logTargets| > 0 && l.daemons[i].logTargets[0].logName != name
  {
    if SelectLog(l, name).Found? {
      var k := FirstStop(l.daemons, name);
      assert l.daemons[k].logTargets[0].logName == name;
    }
  }

  /** A reply that is not 200, or whose body is empty, is an error before
      any decoding: the decoders are never consulted. */
  lemma RejectedBeforeDecoding(resp: Response, name: string,
                               decodeSubnet: seq<byte> -> Option<KeaSubnet>,
                               decodeApp: seq<byte> -> Option<KeaApp>,
                               decodeLogs: seq<byte> -> Option<KeaLogs>)
    requires resp.Reply?
    requires resp.status != STATUS_OK || (resp.body.Success? && resp.body.value == [])
    ensures SubnetOutcome(resp, decodeSubnet) == Error(SUBNET_MESSAGES.status)
    ensures AppOutcome(resp, decodeApp, name) == Error(APP_MESSAGES.status)
    ensures LogOutcome(resp, decodeLogs, name)
      == Error(if resp.status != STATUS_OK then LOG_MESSAGES.status else LOG_MESSAGES.empty)
  {
  }

  /** The path getLogID requests names the app id it found. */
  lemma AppPathNamesApp(a: int, b: int)
    requires AppPath(a) == AppPath(b)
    ensures a == b
  {
    var prefix := APPS_PATH + "/";
    assert AppPath(a) == prefix + Decimal.Format(a) && AppPath(b) == prefix + Decimal.Format(b);
    assert Decimal.Format(a) == AppPath(a)[|prefix|..];
    assert Decimal.Format(b) == AppPath(b)[|prefix|..];
    Decimal.FormatInjective(a, b);
  }
}
