/**
 * The request logic of the border router's web service: the JSON reply of a request, the
 * join and form chains of WPAN controller calls, the network scan, the containment check of
 * the static-file handler and the boot of the mDNS publisher. HTTP, JSON and D-Bus are
 * abstracted: a request handler receives its parsed fields, and the WPAN controller is an
 * oracle that answers each call it receives in order (an exhausted oracle answers OK).
 */
module WebService {
  import Mdns

  /** The wpantund status codes the handlers return. */
  datatype WpanStatus =
    | Ok
    | LeaveFailed
    | SetFailed
    | JoinFailed
    | FormFailed
    | SetGatewayFailed
    | ScanFailed
    | NetworkNotFound

  /** The JSON object HttpReponse writes: the error code and a result word. */
  datatype Reply = Reply(error: WpanStatus, result: string)

  /** HttpReponse: echo the error and call the request successful exactly when it is OK. */
  function HttpReponse(error: WpanStatus): (r: Reply)
    ensures r.error == error
    ensures r.result == "successful" <==> error == Ok
    ensures r.result == "failed" <==> error != Ok
  {
    Reply(error, if error == Ok then "successful" else "failed")
  }

  // ---------------------------------------------------------------------------------------
  // Chains of WPAN controller calls
  // ---------------------------------------------------------------------------------------

  /** One scanned network, as the controller reports it. */
  datatype NetworkInfo = NetworkInfo(
    networkName: string, channel: nat, extPanId: nat, panId: nat, hardwareAddress: seq<bv8>)

  /** A zero-filled entry of the network table. */
  const NoNetwork := NetworkInfo("", 0, 0, 0, [])

  /** The calls a handler makes on the WPAN controller. */
  datatype WpanCall =
    | Leave
    | SetNetworkKey(key: string)
    | SetPanId(panId: string)
    | SetXPanId(xpanId: string)
    | SetPskc
    | Join(network: NetworkInfo)
    | Form(name: string, channel: nat)
    | AddGateway(prefix: string, defaultRoute: bool)
    | Scan

  /** A VerifyOrExit step: the call, and the status the handler returns when it fails. */
  datatype Step = Step(call: WpanCall, failure: WpanStatus)

  /** The answer to the i-th call: OK once the oracle is exhausted. */
  function Answer(answers: seq<bool>, i: nat): bool {
    i >= |answers| || answers[i]
  }

  /** What a chain did: the status it returns and the calls it made, in order. */
  datatype Outcome = Outcome(status: WpanStatus, calls: seq<WpanCall>)

  /** A chain of VerifyOrExit steps: run them in order and stop at the first failing call. */
  function RunSteps(steps: seq<Step>, answers: seq<bool>): (r: Outcome)
    ensures |r.calls| <= |steps|
    decreases |steps|
  {
    if steps == [] then Outcome(Ok, [])
    else if !Mdns.Next(answers) then Outcome(steps[0].failure, [steps[0].call])
    else
      var rest := RunSteps(steps[1..], Mdns.Rest(answers));
      Outcome(rest.status, [steps[0].call] + rest.calls)
  }

  /** The calls of a chain, all of them. */
  function Calls(steps: seq<Step>): (calls: seq<WpanCall>)
    ensures |calls| == |steps|
    ensures forall i :: 0 <= i < |steps| ==> calls[i] == steps[i].call
  {
    seq(|steps|, i requires 0 <= i < |steps| => steps[i].call)
  }

  /** The index of the first rejected call among the first n, or n when all n are accepted. */
  function FirstFailure(answers: seq<bool>, n: nat): (k: nat)
    ensures k <= n
  {
    FirstFailureFrom(answers, 0, n)
  }

  function FirstFailureFrom(answers: seq<bool>, i: nat, n: nat): (k: nat)
    requires i <= n
    ensures i <= k <= n
    decreases n - i
  {
    if i == n then n else if !Answer(answers, i) then i else FirstFailureFrom(answers, i + 1, n)
  }

  lemma {:induction false} FirstFailureFromSpec(answers: seq<bool>, i: nat, n: nat)
    requires i <= n
    ensures var k := FirstFailureFrom(answers, i, n);
      && (forall j :: i <= j < k ==> Answer(answers, j))
      && (k < n ==> !Answer(answers, k))
    decreases n - i
  {
    if i < n && Answer(answers, i) {
      FirstFailureFromSpec(answers, i + 1, n);
    }
  }

  /** Dropping the first answer shifts the first failure by one. */
  lemma {:induction false} FirstFailureShift(answers: seq<bool>, i: nat, n: nat)
    requires i <= n
    ensures FirstFailureFrom(answers, i + 1, n + 1) == FirstFailureFrom(Mdns.Rest(answers), i, n) + 1
    decreases n - i
  {
    assert Answer(answers, i + 1) == Answer(Mdns.Rest(answers), i);
    if i < n && Answer(answers, i + 1) {
      FirstFailureShift(answers, i + 1, n);
    }
  }

  /**
   * The first failing call picks the status, and no later call is made: with k the index of
   * the first rejected call, the chain makes calls 0..k and returns the failure of step k;
   * when every call is accepted it makes them all and returns OK.
   */
  lemma {:induction false} FirstFailureDecides(steps: seq<Step>, answers: seq<bool>)
    ensures
      var k := FirstFailure(answers, |steps|);
      var r := RunSteps(steps, answers);
      && (k == |steps| ==> r == Outcome(Ok, Calls(steps)))
      && (k < |steps| ==> r == Outcome(steps[k].failure, Calls(steps)[..k + 1]))
    decreases |steps|
  {
    if steps != [] {
      var tail := steps[1..];
      if Mdns.Next(answers) {
        FirstFailureDecides(tail, Mdns.Rest(answers));
        FirstFailureShift(answers, 0, |tail|);
        assert Answer(answers, 0);
        assert FirstFailure(answers, |steps|) == FirstFailure(Mdns.Rest(answers), |tail|) + 1;
        assert Calls(steps) == [steps[0].call] + Calls(tail);
        var k := FirstFailure(answers, |steps|);
        if k < |steps| {
          assert Calls(steps)[..k + 1] == [steps[0].call] + Calls(tail)[..k];
        }
      } else {
        assert !Answer(answers, 0);
      }
    }
  }

  /** Every failure status of a chain is an error, never OK. */
  predicate FailuresAreErrors(steps: seq<Step>) {
    forall i :: 0 <= i < |steps| ==> steps[i].failure != Ok
  }

  /** A chain returns OK exactly when it made every call and every call was accepted. */
  lemma ChainSucceedsIffAllAccepted(steps: seq<Step>, answers: seq<bool>)
    requires FailuresAreErrors(steps)
    ensures RunSteps(steps, answers).status == Ok
        <==> forall i :: 0 <= i < |steps| ==> Answer(answers, i)
    ensures RunSteps(steps, answers).status == Ok ==> RunSteps(steps, answers).calls == Calls(steps)
  {
    FirstFailureDecides(steps, answers);
    FirstFailureFromSpec(answers, 0, |steps|);
  }

  /** Join: leave, set the network key, join the chosen network, add the gateway. */
  function JoinSteps(networkKey: string, network: NetworkInfo, prefix: string, defaultRoute: bool): (steps: seq<Step>)
    ensures |steps| == 4 && FailuresAreErrors(steps)
  {
    [Step(Leave, LeaveFailed), Step(SetNetworkKey(networkKey), SetFailed),
     Step(Join(network), JoinFailed), Step(AddGateway(prefix, defaultRoute), SetGatewayFailed)]
  }

  /** Form: leave, set key, PAN ID, extended PAN ID and PSKc, form, add the gateway. */
  function FormSteps(networkKey: string, panId: string, extPanId: string, networkName: string,
                     channel: nat, prefix: string, defaultRoute: bool): (steps: seq<Step>)
    ensures |steps| == 7 && FailuresAreErrors(steps)
  {
    [Step(Leave, LeaveFailed), Step(SetNetworkKey(networkKey), SetFailed),
     Step(SetPanId(panId), SetFailed), Step(SetXPanId(extPanId), SetFailed),
     Step(SetPskc, SetFailed), Step(Form(networkName, channel), FormFailed),
     Step(AddGateway(prefix, defaultRoute), SetGatewayFailed)]
  }

  // ---------------------------------------------------------------------------------------
  // Static files
  // ---------------------------------------------------------------------------------------

  /** std::equal over the web root's components against the start of the request's. */
  function ComponentsEqual(root: seq<string>, path: seq<string>): bool
    requires |root| <= |path|
  {
    root == [] || (root[0] == path[0] && ComponentsEqual(root[1..], path[1..]))
  }

  /** The containment check: no longer than the path, and equal to its leading components. */
  function IsWithinRoot(root: seq<string>, path: seq<string>): bool {
    !(|root| > |path| || !ComponentsEqual(root, path))
  }

  /** A path is within the web root exactly when the root's components are a prefix of its components. */
  lemma {:induction false} WithinRootIffPrefix(root: seq<string>, path: seq<string>)
    ensures IsWithinRoot(root, path) <==> root <= path
    decreases |root|
  {
    if root != [] && |root| <= |path| {
      WithinRootIffPrefix(root[1..], path[1..]);
      if root[0] == path[0] && root[1..] <= path[1..] {
        assert root == [path[0]] + root[1..];
        assert path == [path[0]] + path[1..];
      }
    }
  }

  /** How the file handler answers: the file it sends, or why it sends the failure status. */
  datatype FileReply = Serve(file: seq<string>) | Reject(reason: Rejection)

  /**
   * The reasons for a failure reply: a path that cannot be made canonical, "path must be
   * within root path", "file does not exist" and "could not read file".
   */
  datatype Rejection = NoCanonicalPath | OutsideRoot | NoSuchFile | Unreadable

  /**
   * The default GET handler once the web root and the requested path are canonical (None when
   * canonicalisation failed): reject a path outside the root, serve index.html for a
   * directory, reject what is not an existing regular file or cannot be opened.
   */
  function DefaultResponse(root: Mdns.Option<seq<string>>, path: Mdns.Option<seq<string>>,
                           isDirectory: seq<string> -> bool, isRegularFile: seq<string> -> bool,
                           opens: seq<string> -> bool): (r: FileReply)
    ensures r.Serve? ==> root.Some? && path.Some? && root.value <= path.value
    ensures r.Serve? ==> r.file == (if isDirectory(path.value) then path.value + ["index.html"] else path.value)
    ensures root.Some? && path.Some? && !(root.value <= path.value) ==> r == Reject(OutsideRoot)
  {
    if root.None? || path.None? then Reject(NoCanonicalPath)
    else
      WithinRootIffPrefix(root.value, path.value);
      if !IsWithinRoot(root.value, path.value) then Reject(OutsideRoot)
      else
        var file := if isDirectory(path.value) then path.value + ["index.html"] else path.value;
        if !isRegularFile(file) then Reject(NoSuchFile)
        else if !opens(file) then Reject(Unreadable)
        else Serve(file)
  }

  // ---------------------------------------------------------------------------------------
  // The boot of the mDNS publisher
  // ---------------------------------------------------------------------------------------

  const MESHCOP_SERVICE_TYPE := "_meshcop._udp"
  const BORDER_ROUTER_PORT: Mdns.uint16 := 49191

  /** s with k copies of pre in front of it. */
  function Prefixed(pre: string, k: nat, s: string): string {
    if k == 0 then s else pre + Prefixed(pre, k - 1, s)
  }

  /** k copies of pre, one after the other. */
  function Repeat(pre: string, k: nat): (r: string)
    ensures |r| == k * |pre|
  {
    if k == 0 then [] else pre + Repeat(pre, k - 1)
  }

  /** The prefixes pile up: k boots leave k copies of the prefix in front of the name. */
  lemma {:induction false} PrefixAccumulates(pre: string, k: nat, s: string)
    ensures Prefixed(pre, k, s) == Repeat(pre, k) + s
    ensures |Prefixed(pre, k, s)| == k * |pre| + |s|
  {
    if k > 0 {
      PrefixAccumulates(pre, k - 1, s);
      assert pre + (Repeat(pre, k - 1) + s) == (pre + Repeat(pre, k - 1)) + s;
    }
  }

  /** The publisher after the boot handler's setters, given the globals it read. */
  function Configured(st: Mdns.State, networkName: string, extPanId: string): (r: Mdns.State)
    ensures Mdns.Advertised(r) == Mdns.Record(Mdns.Some(networkName), Mdns.Some(MESHCOP_SERVICE_TYPE),
                                               BORDER_ROUTER_PORT, Mdns.Some("nn=" + networkName),
                                               Mdns.Some("xp=" + extPanId))
  {
    st.(serviceName := Mdns.Some(networkName), serviceType := Mdns.Some(MESHCOP_SERVICE_TYPE),
        port := BORDER_ROUTER_PORT, networkNameTxt := Mdns.Some("nn=" + networkName),
        extPanIdTxt := Mdns.Some("xp=" + extPanId))
  }

  // ---------------------------------------------------------------------------------------
  // The module globals and the handlers that update them
  // ---------------------------------------------------------------------------------------

  class WebGlobals {
    /** sNetworks: the fixed-size table the scan is copied into, and sNetworksCount. */
    const networks: array<NetworkInfo>
    var networksCount: int
    var networkName: string
    var extPanId: string
    var isStarted: bool

    /** Long2Hex, the hex helper the join handler formats the extended PAN ID with. */
    const long2Hex: nat -> string

    /** The globals last set by a join or a form, and the boots since then. */
    ghost var baseName: string
    ghost var baseExtPanId: string
    ghost var boots: nat

    ghost predicate Valid()
      reads this
    {
      networkName == Prefixed("nn=", boots, baseName) && extPanId == Prefixed("xp=", boots, baseExtPanId)
    }

    /** Zero-initialised globals; capacity is the table's fixed size. */
    constructor (capacity: nat, long2Hex: nat -> string)
      ensures Valid() && fresh(networks) && networks.Length == capacity
      ensures forall i :: 0 <= i < capacity ==> networks[i] == NoNetwork
      ensures networksCount == 0 && networkName == "" && extPanId == "" && !isStarted
      ensures this.long2Hex == long2Hex && boots == 0
    {
      networks := new NetworkInfo[capacity](_ => NoNetwork);
      networksCount := 0;
      networkName, extPanId := "", "";
      isStarted := false;
      this.long2Hex := long2Hex;
      baseName, baseExtPanId, boots := "", "", 0;
    }

    method SetNetworkInfo(networkName: string, extPanId: string)
      modifies this`networkName, this`extPanId, this`baseName, this`baseExtPanId, this`boots
      ensures Valid()
      ensures this.networkName == networkName && this.extPanId == extPanId && boots == 0
    {
      this.networkName := networkName;
      this.extPanId := extPanId;
      baseName, baseExtPanId, boots := networkName, extPanId, 0;
    }

    /**
     * OnJoinNetworkRequest on the index-th table entry. The globals take the joined network's
     * name and extended PAN ID only when every call succeeded.
     */
    method OnJoinNetworkRequest(index: int, networkKey: string, prefix: string, defaultRoute: bool,
                                answers: seq<bool>) returns (reply: Reply, ghost calls: seq<WpanCall>)
      requires Valid() && 0 <= index < networks.Length
      modifies this`networkName, this`extPanId, this`baseName, this`baseExtPanId, this`boots
      ensures Valid()
      ensures
        var outcome := RunSteps(JoinSteps(networkKey, networks[index], prefix, defaultRoute), answers);
        reply == HttpReponse(outcome.status) && calls == outcome.calls
      ensures reply.error == Ok ==>
                networkName == networks[index].networkName && extPanId == long2Hex(networks[index].extPanId)
      ensures reply.error != Ok ==> networkName == old(networkName) && extPanId == old(extPanId)
    {
      var network := networks[index];
      var outcome := RunSteps(JoinSteps(networkKey, network, prefix, defaultRoute), answers);
      calls := outcome.calls;
      if outcome.status == Ok {
        SetNetworkInfo(network.networkName, long2Hex(network.extPanId));
      }
      reply := HttpReponse(outcome.status);
    }

    /** OnFormNetworkRequest. The globals take the new network's name and extended PAN ID only when every call succeeded. */
    method OnFormNetworkRequest(networkKey: string, prefix: string, channel: nat, networkName: string,
                                panId: string, extPanId: string, defaultRoute: bool,
                                answers: seq<bool>) returns (reply: Reply, ghost calls: seq<WpanCall>)
      requires Valid()
      modifies this`networkName, this`extPanId, this`baseName, this`baseExtPanId, this`boots
      ensures Valid()
      ensures
        var outcome := RunSteps(FormSteps(networkKey, panId, extPanId, networkName, channel, prefix, defaultRoute), answers);
        reply == HttpReponse(outcome.status) && calls == outcome.calls
      ensures reply.error == Ok ==> this.networkName == networkName && this.extPanId == extPanId
      ensures reply.error != Ok ==> this.networkName == old(this.networkName) && this.extPanId == old(this.extPanId)
    {
      var outcome := RunSteps(FormSteps(networkKey, panId, extPanId, networkName, channel, prefix, defaultRoute), answers);
      calls := outcome.calls;
      if outcome.status == Ok {
        SetNetworkInfo(networkName, extPanId);
      }
      reply := HttpReponse(outcome.status);
    }

    /**
     * OnGetAvailableNetworkResponse: leave, scan, record the count, and on a non-empty scan
     * copy it into the table and list the networks in scan order.
     */
    method OnGetAvailableNetworkResponse(answers: seq<bool>, scan: seq<NetworkInfo>) returns (reply: ScanReply)
      requires |scan| <= networks.Length
      modifies this`networksCount, networks
      ensures reply.error == (if !Answer(answers, 0) then LeaveFailed
                              else if !Answer(answers, 1) then ScanFailed
                              else if scan == [] then NetworkNotFound
                              else Ok)
      ensures reply.result.Listed? <==> reply.error == Ok
      ensures reply.error == Ok ==> reply.result.networks == scan
      ensures networksCount == if Answer(answers, 0) && Answer(answers, 1) then |scan| else old(networksCount)
      ensures networks[..] == if reply.error == Ok then scan + old(networks[|scan|..]) else old(networks[..])
    {
      if !Answer(answers, 0) {
        return ScanReply(LeaveFailed, FailedResult);
      }
      if !Answer(answers, 1) {
        return ScanReply(ScanFailed, FailedResult);
      }
      networksCount := |scan|;
      if networksCount <= 0 {
        return ScanReply(NetworkNotFound, FailedResult);
      }
      forall i | 0 <= i < |scan| {
        networks[i] := scan[i];
      }
      assert networks[..] == scan + old(networks[|scan|..]);
      var listed := ListNetworks();
      reply := ScanReply(Ok, Listed(listed));
    }

    /** The for loop over the table that builds one result entry per scanned network. */
    method ListNetworks() returns (listed: seq<NetworkInfo>)
      requires 0 <= networksCount <= networks.Length
      ensures listed == networks[..networksCount]
    {
      listed := [];
      var i := 0;
      while i < networksCount
        invariant 0 <= i <= networksCount
        invariant listed == networks[..i]
      {
        listed := listed + [networks[i]];
        i := i + 1;
      }
    }

    /** The boot handler's setters, and the "nn="/"xp=" prefixes put on the globals afterwards. */
    method ConfigurePublisher(p: Mdns.Publisher)
      requires Valid()
      modifies this`networkName, this`extPanId, this`boots
      modifies p`serviceName, p`serviceType, p`port, p`networkNameTxt, p`extPanIdTxt
      ensures Valid() && boots == old(boots) + 1
      ensures networkName == "nn=" + old(networkName) && extPanId == "xp=" + old(extPanId)
      ensures p.Abs() == Configured(old(p.Abs()), old(networkName), old(extPanId))
    {
      p.SetServiceName(networkName);
      p.SetType(MESHCOP_SERVICE_TYPE);
      p.SetPort(BORDER_ROUTER_PORT);
      networkName := "nn=" + networkName;
      extPanId := "xp=" + extPanId;
      boots := boots + 1;
      p.SetNetworkNameTxt(networkName);
      p.SetExtPanIdTxt(extPanId);
    }

    /**
     * OnBootMdnsRequest: configure the publisher from the globals, then start it in client
     * mode on the first call and update its TXT record on every later call. The name handed
     * to the publisher carries one "nn=" prefix per earlier boot since the last join or form.
     */
    method OnBootMdnsRequest(p: Mdns.Publisher) returns (reply: Reply)
      requires Valid() && p.Valid()
      modifies this`networkName, this`extPanId, this`boots, this`isStarted, p
      ensures Valid() && isStarted && boots == old(boots) + 1
      ensures reply == HttpReponse(Ok)
      ensures old(isStarted) ==>
                p.Abs() == Mdns.Update(Configured(old(p.Abs()), Prefixed("nn=", old(boots), baseName),
                                                  Prefixed("xp=", old(boots), baseExtPanId))).0
      ensures !old(isStarted) ==>
                && p.serviceName.None? && p.simplePoll == 0
                && p.server == Mdns.NullConn && p.client == Mdns.NullConn
                && p.serverGroup in {Mdns.NoGroup, Mdns.FreedGroup} && p.clientGroup in {Mdns.NoGroup, Mdns.FreedGroup}
                && old(p.log) + [Mdns.PollNew(Mdns.Next(old(p.script.pollNew)))] <= p.log
      ensures !old(isStarted) ==>
                var c := Configured(old(p.Abs()), Prefixed("nn=", old(boots), baseName),
                                    Prefixed("xp=", old(boots), baseExtPanId));
                p.serviceType == c.serviceType && p.port == c.port
                && p.networkNameTxt == c.networkNameTxt && p.extPanIdTxt == c.extPanIdTxt
    {
      ConfigurePublisher(p);
      if isStarted {
        var _ := p.UpdateService();
      } else {
        isStarted := true;
        var _ := p.StartClient();
      }
      reply := HttpReponse(Ok);
    }
  }

  /** The result of the available-network request: the networks, or the word "failed". */
  datatype ScanResult = Listed(networks: seq<NetworkInfo>) | FailedResult

  datatype ScanReply = ScanReply(error: WpanStatus, result: ScanResult)
}
