/**
  The training-pipeline router of osc_extraction_utils/router.py.

  A `Router` resolves the addresses of the extraction and the inference
  server, checks that each is live, builds the request payload from the
  settings, and sends the pipeline's requests in a fixed order. No step is
  skipped because an earlier one failed: every failure only lowers the
  success flag `returnValue`, which starts true and is never raised again.

  The HTTP layer is an oracle `Http` from a URL to the status code its GET
  answers with; the text-merge routine (`generate_text_3434`) is an oracle
  `MergeOutcome`. The requests issued and the lines printed are recorded in
  the ghost fields `trace` and `console`, so that order and branching can be
  stated.
 */
module Router {
  import opened Wrappers
  import opened Settings
  import Decimal

  /** The status code that a GET to each URL answers with. */
  type Http = string -> int

  /** The `payload` query parameter: `json.dumps` of a map, kept as the map it encodes. */
  datatype Param = Json(body: map<string, Value>)

  /** The query parameters sent with every action request. */
  type Payload = map<string, Param>

  /** What the router asks of the outside world, in the order it asks. */
  datatype Call =
    | Liveness(address: string)                              // GET {address}/liveness
    | Dispatch(address: string, node: string, params: Payload) // GET {address}/{node}?payload=...
    | Merge(projectName: string, s3Usage: bool)              // generate_text_3434(...)

  /** How a call of the text-merge routine ends. */
  datatype MergeOutcome = Generated | NotGenerated | Raised

  /** The status lines the router prints. */
  datatype Message =
    | ExtractionUp               // "Extraction server is up. Proceeding to extraction."
    | ExtractionNotResponding    // "Extraction server is not responding."
    | InferenceUp                // "Inference server is up. Proceeding to Inference."
    | InferenceNotResponding     // "Inference server is not responding."
    | RelevanceTrainingStarted   // "Relevance training will be started."
    | NoRelevanceTraining        // "No relevance training done. ..."
    | NoKpiTraining              // "No kpi training done. ..."
    | TextGenerated              // "text_3434 was generated without error."
    | TextNotGenerated           // "text_3434 was not generated without error."
    | TextError                  // "Error while generating text_3434." and the error
    | KpiTrainingNext            // "Next we start the training of the inference model. ..."

  // ---------------------------------------------------------------------------
  // Addresses

  const Scheme: string := "http://"

  /** `f"http://{ip}:{port}"`. */
  function ServerAddress(ip: string, port: nat): string {
    Scheme + ip + ":" + Decimal.Format(port)
  }

  function ExtractionAddress(g: General): string {
    ServerAddress(g.extIp, g.extPort)
  }

  function InferenceAddress(g: General): string {
    ServerAddress(g.inferIp, g.inferPort)
  }

  /** `f"{address}/{node}"`. */
  function Url(address: string, node: string): string {
    address + "/" + node
  }

  /** The position of the last ':' in s, if any. */
  function LastColon(s: string): (r: Option<nat>)
    ensures r.Some? ==> r.value < |s| && s[r.value] == ':'
    ensures r.Some? ==> forall j :: r.value < j < |s| ==> s[j] != ':'
    ensures r.None? ==> forall j :: 0 <= j < |s| ==> s[j] != ':'
    decreases |s|
  {
    if s == [] then None
    else if s[|s| - 1] == ':' then Some(|s| - 1)
    else LastColon(s[..|s| - 1])
  }

  /** Reads host and port back out of a server address. */
  function SplitAddress(a: string): Option<(string, nat)> {
    if |a| < |Scheme| || a[..|Scheme|] != Scheme then None
    else
      var rest := a[|Scheme|..];
      match LastColon(rest)
      case None => None
      case Some(i) =>
        var digits := rest[i + 1..];
        if digits != [] && Decimal.IsDigits(digits) then Some((rest[..i], Decimal.Parse(digits)))
        else None
  }

  /** A server address determines the host and port it was built from. */
  lemma AddressRoundTrip(ip: string, port: nat)
    ensures SplitAddress(ServerAddress(ip, port)) == Some((ip, port))
  {
    var a := ServerAddress(ip, port);
    var digits := Decimal.Format(port);
    assert a[..|Scheme|] == Scheme;
    var rest := a[|Scheme|..];
    assert rest == ip + ":" + digits;
    assert rest[|ip|] == ':';
    var last := LastColon(rest);
    assert last == Some(|ip|) by {
      assert forall j :: |ip| < j < |rest| ==> rest[j] == digits[j - |ip| - 1];
    }
    assert rest[|ip| + 1..] == digits;
    assert rest[..|ip|] == ip;
    Decimal.ParseFormat(port);
  }

  // ---------------------------------------------------------------------------
  // Payload

  /** `{"project_name": ..., "mode": "train"}` updated with `model_dump()`. */
  function PayloadFields(s: MainSettings): map<string, Value> {
    map["project_name" := Str(s.general.projectName), "mode" := Str("train")] + ModelDump(s)
  }

  /** `{"payload": json.dumps(...)}`. */
  function BuildPayload(s: MainSettings): Payload {
    map["payload" := Json(PayloadFields(s))]
  }

  /**
    The payload has the single key "payload"; the map it encodes holds the
    project name and the mode "train", with every entry of the settings dump
    taking precedence over them.
   */
  lemma PayloadContents(s: MainSettings)
    ensures BuildPayload(s).Keys == {"payload"}
    ensures BuildPayload(s)["payload"].body.Keys == {"project_name", "mode"} + ModelDump(s).Keys
    ensures forall k :: k in ModelDump(s) ==> BuildPayload(s)["payload"].body[k] == ModelDump(s)[k]
    ensures "project_name" !in ModelDump(s) ==>
              BuildPayload(s)["payload"].body["project_name"] == Str(s.general.projectName)
    ensures "mode" !in ModelDump(s) ==> BuildPayload(s)["payload"].body["mode"] == Str("train")
  {
  }

  /** The settings dump has no top-level "mode" or "project_name", so neither is overridden. */
  lemma PayloadModeIsTrain(s: MainSettings)
    ensures BuildPayload(s)["payload"].body["mode"] == Str("train")
    ensures BuildPayload(s)["payload"].body["project_name"] == Str(s.general.projectName)
  {
    PayloadContents(s);
  }

  // ---------------------------------------------------------------------------
  // Success accumulation

  predicate IsRequest(c: Call) {
    !c.Merge?
  }

  /** The status code of an HTTP request. */
  function Status(http: Http, c: Call): int
    requires IsRequest(c)
  {
    match c
    case Liveness(a) => http(Url(a, "liveness"))
    case Dispatch(a, n, _) => http(Url(a, n))
  }

  /** Whether a call leaves the success flag alone: a merge always does. */
  predicate Succeeds(http: Http, c: Call) {
    IsRequest(c) ==> Status(http, c) == 200
  }

  /** The success flag after the calls, starting from ok. */
  function Accumulate(ok: bool, http: Http, calls: seq<Call>): bool
    decreases |calls|
  {
    if calls == [] then ok else Accumulate(ok && Succeeds(http, calls[0]), http, calls[1..])
  }

  /** The flag ends true exactly when it started true and every request answered 200. */
  lemma {:induction false} AccumulateAllSucceed(ok: bool, http: Http, calls: seq<Call>)
    ensures Accumulate(ok, http, calls) <==>
              ok && forall i :: 0 <= i < |calls| && IsRequest(calls[i]) ==> Status(http, calls[i]) == 200
    decreases |calls|
  {
    if calls != [] {
      AccumulateAllSucceed(ok && Succeeds(http, calls[0]), http, calls[1..]);
      assert forall i :: 1 <= i < |calls| ==> calls[i] == calls[1..][i - 1];
    }
  }

  /** Running two call sequences one after the other accumulates as their concatenation. */
  lemma {:induction false} AccumulateAppend(ok: bool, http: Http, a: seq<Call>, b: seq<Call>)
    ensures Accumulate(ok, http, a + b) == Accumulate(Accumulate(ok, http, a), http, b)
    decreases |a|
  {
    if a == [] {
      assert a + b == b;
    } else {
      assert (a + b)[0] == a[0];
      assert (a + b)[1..] == a[1..] + b;
      AccumulateAppend(ok && Succeeds(http, a[0]), http, a[1..], b);
    }
  }

  /** Once false, the flag stays false, whatever the later calls answer. */
  lemma AccumulateNeverRestores(ok: bool, http: Http, calls: seq<Call>)
    ensures !ok ==> !Accumulate(ok, http, calls)
  {
    AccumulateAllSucceed(ok, http, calls);
  }

  // ---------------------------------------------------------------------------
  // The run

  function RelevanceCalls(train: bool, inference: string, p: Payload): seq<Call> {
    if train then [Dispatch(inference, "train_relevance", p)] else []
  }

  function KpiCalls(train: bool, inference: string, p: Payload, g: General): seq<Call> {
    if train then
      [Dispatch(inference, "infer_relevance", p), Merge(g.projectName, g.s3Usage), Dispatch(inference, "train_kpi", p)]
    else []
  }

  /** The calls every run makes before the two training branches. */
  function PrefixCalls(s: MainSettings): seq<Call> {
    var ext, inf, p := ExtractionAddress(s.general), InferenceAddress(s.general), BuildPayload(s);
    [Liveness(ext), Dispatch(ext, "extract", p), Dispatch(ext, "curate", p), Liveness(inf)]
  }

  /** Every call one run makes, in order. It depends on the settings alone, never on an answer. */
  function RunCalls(s: MainSettings): seq<Call> {
    var inf, p := InferenceAddress(s.general), BuildPayload(s);
    PrefixCalls(s)
    + RelevanceCalls(s.trainRelevance.train, inf, p)
    + KpiCalls(s.trainKpi.train, inf, p, s.general)
  }

  /**
    The flag after a run, in closed form: the statuses that count are the two
    liveness checks, the two extraction requests, and the training requests of
    the enabled branches. Nothing about the merge enters it.
   */
  lemma AccumulateRun(ok: bool, http: Http, s: MainSettings)
    ensures var ext, inf := ExtractionAddress(s.general), InferenceAddress(s.general);
      Accumulate(ok, http, RunCalls(s)) ==
        (ok &&
         http(Url(ext, "liveness")) == 200 && http(Url(ext, "extract")) == 200 &&
         http(Url(ext, "curate")) == 200 && http(Url(inf, "liveness")) == 200 &&
         (s.trainRelevance.train ==> http(Url(inf, "train_relevance")) == 200) &&
         (s.trainKpi.train ==> http(Url(inf, "infer_relevance")) == 200 && http(Url(inf, "train_kpi")) == 200))
  {
    var inf, p := InferenceAddress(s.general), BuildPayload(s);
    var rel, kpi := RelevanceCalls(s.trainRelevance.train, inf, p), KpiCalls(s.trainKpi.train, inf, p, s.general);
    AccumulateAppend(ok, http, PrefixCalls(s), rel);
    AccumulateAppend(ok, http, PrefixCalls(s) + rel, kpi);
    var ok1 := Accumulate(ok, http, PrefixCalls(s));
    var ok2 := Accumulate(ok1, http, rel);
    AccumulateFour(ok, http, PrefixCalls(s));
    AccumulateAllSucceed(ok1, http, rel);
    AccumulateAllSucceed(ok2, http, kpi);
    if s.trainKpi.train {
      assert Succeeds(http, kpi[0]) && Succeeds(http, kpi[2]) ==> Accumulate(ok2, http, kpi) == ok2;
    }
  }

  lemma ConcatAssoc<T>(a: seq<T>, b: seq<T>, c: seq<T>, d: seq<T>)
    ensures a + b + c + d == a + (b + c + d)
  {
  }

  lemma AppendFour<T>(t: seq<T>, s: seq<T>)
    requires |s| == 4
    ensures t + [s[0]] + [s[1]] + [s[2]] + [s[3]] == t + s
  {
  }

  lemma AccumulateFour(ok: bool, http: Http, calls: seq<Call>)
    requires |calls| == 4
    ensures Accumulate(ok, http, calls) ==
              (ok && Succeeds(http, calls[0]) && Succeeds(http, calls[1]) &&
               Succeeds(http, calls[2]) && Succeeds(http, calls[3]))
  {
    AccumulateAllSucceed(ok, http, calls);
  }

  function LivenessMessage(extraction: bool, up: bool): Message {
    if extraction then (if up then ExtractionUp else ExtractionNotResponding)
    else (if up then InferenceUp else InferenceNotResponding)
  }

  function MergeMessage(m: MergeOutcome): Message {
    match m
    case Generated => TextGenerated
    case NotGenerated => TextNotGenerated
    case Raised => TextError
  }

  function RelevanceConsole(train: bool): seq<Message> {
    [RelevanceTrainingStarted] + (if train then [] else [NoRelevanceTraining])
  }

  function KpiConsole(train: bool, merge: MergeOutcome): seq<Message> {
    if train then [MergeMessage(merge), KpiTrainingNext] else [NoKpiTraining]
  }

  /** The lines of the two liveness checks. */
  function PrefixConsole(s: MainSettings, http: Http): seq<Message> {
    var ext, inf := ExtractionAddress(s.general), InferenceAddress(s.general);
    [LivenessMessage(true, http(Url(ext, "liveness")) == 200),
     LivenessMessage(false, http(Url(inf, "liveness")) == 200)]
  }

  /** Every status line one run prints, in order. */
  function RunConsole(s: MainSettings, http: Http, merge: MergeOutcome): seq<Message> {
    PrefixConsole(s, http)
    + RelevanceConsole(s.trainRelevance.train)
    + KpiConsole(s.trainKpi.train, merge)
  }

  /** The number of action requests to a node. */
  function CountNode(calls: seq<Call>, node: string): nat
    decreases |calls|
  {
    if calls == [] then 0
    else (if calls[0].Dispatch? && calls[0].node == node then 1 else 0) + CountNode(calls[1..], node)
  }

  lemma {:induction false} CountNodeAppend(a: seq<Call>, b: seq<Call>, node: string)
    ensures CountNode(a + b, node) == CountNode(a, node) + CountNode(b, node)
    decreases |a|
  {
    if a == [] {
      assert a + b == b;
    } else {
      assert (a + b)[0] == a[0];
      assert (a + b)[1..] == a[1..] + b;
      CountNodeAppend(a[1..], b, node);
    }
  }

  lemma CountNodeSingle(c: Call, node: string)
    ensures CountNode([c], node) == if c.Dispatch? && c.node == node then 1 else 0
  {
    assert [c][1..] == [];
  }

  lemma {:induction false} CountNodeAbsent(calls: seq<Call>, node: string)
    requires forall i :: 0 <= i < |calls| && calls[i].Dispatch? ==> calls[i].node != node
    ensures CountNode(calls, node) == 0
    decreases |calls|
  {
    if calls != [] {
      assert forall i :: 1 <= i < |calls| ==> calls[1..][i - 1] == calls[i];
      CountNodeAbsent(calls[1..], node);
    }
  }

  /**
    A run from a fresh router ends with the flag true exactly when every request
    it issued answered 200; a merge failure is not among them.
   */
  lemma RunSucceedsIff(s: MainSettings, http: Http)
    ensures var calls := RunCalls(s);
      Accumulate(true, http, calls) <==>
      forall i :: 0 <= i < |calls| && IsRequest(calls[i]) ==> Status(http, calls[i]) == 200
  {
    AccumulateAllSucceed(true, http, RunCalls(s));
  }

  /**
    The fixed part of a run: both liveness checks and both extraction requests,
    each action request carrying the payload built from the settings.
   */
  lemma RunPrefix(s: MainSettings)
    ensures var calls, ext, p := RunCalls(s), ExtractionAddress(s.general), BuildPayload(s);
      |calls| >= 4 &&
      calls[..4] == [Liveness(ext), Dispatch(ext, "extract", p), Dispatch(ext, "curate", p),
                     Liveness(InferenceAddress(s.general))]
    ensures forall c :: c in RunCalls(s) && c.Dispatch? ==> c.params == BuildPayload(s)
  {
  }

  /**
    Relevance training: one request to "train_relevance", sent to the inference
    server, when the flag is set, and none otherwise.
   */
  lemma RelevanceBranch(s: MainSettings)
    ensures CountNode(RunCalls(s), "train_relevance") == if s.trainRelevance.train then 1 else 0
    ensures forall c :: c in RunCalls(s) && c.Dispatch? && c.node == "train_relevance" ==>
              c.address == InferenceAddress(s.general)
  {
    var ext, inf, p := ExtractionAddress(s.general), InferenceAddress(s.general), BuildPayload(s);
    var prefix := [Liveness(ext), Dispatch(ext, "extract", p), Dispatch(ext, "curate", p), Liveness(inf)];
    var rel := RelevanceCalls(s.trainRelevance.train, inf, p);
    var kpi := KpiCalls(s.trainKpi.train, inf, p, s.general);
    assert "infer_relevance"[0] != "train_relevance"[0];
    CountNodeAbsent(prefix, "train_relevance");
    CountNodeAbsent(kpi, "train_relevance");
    CountNodeAppend(prefix + rel, kpi, "train_relevance");
    CountNodeAppend(prefix, rel, "train_relevance");
  }

  /**
    KPI training: when the flag is set, the run ends with "infer_relevance",
    the merge and "train_kpi", in that order; otherwise none of the three happens.
   */
  lemma KpiBranch(s: MainSettings)
    ensures var calls, inf, p := RunCalls(s), InferenceAddress(s.general), BuildPayload(s);
      s.trainKpi.train ==>
        |calls| >= 3 &&
        calls[|calls| - 3..] == [Dispatch(inf, "infer_relevance", p),
                                 Merge(s.general.projectName, s.general.s3Usage),
                                 Dispatch(inf, "train_kpi", p)]
    ensures CountNode(RunCalls(s), "train_kpi") == if s.trainKpi.train then 1 else 0
    ensures CountNode(RunCalls(s), "infer_relevance") == if s.trainKpi.train then 1 else 0
    ensures !s.trainKpi.train ==> forall c :: c in RunCalls(s) ==> !c.Merge?
  {
    var ext, inf, p := ExtractionAddress(s.general), InferenceAddress(s.general), BuildPayload(s);
    var prefix := [Liveness(ext), Dispatch(ext, "extract", p), Dispatch(ext, "curate", p), Liveness(inf)];
    var rel := RelevanceCalls(s.trainRelevance.train, inf, p);
    var kpi := KpiCalls(s.trainKpi.train, inf, p, s.general);
    assert "infer_relevance"[0] != "train_relevance"[0];
    CountNodeAbsent(prefix, "train_kpi");
    CountNodeAbsent(rel, "train_kpi");
    CountNodeAbsent(prefix, "infer_relevance");
    CountNodeAbsent(rel, "infer_relevance");
    if s.trainKpi.train {
      assert kpi == [kpi[0]] + [kpi[1]] + [kpi[2]];
      CountNodeAppend([kpi[0]] + [kpi[1]], [kpi[2]], "train_kpi");
      CountNodeAppend([kpi[0]], [kpi[1]], "train_kpi");
      CountNodeSingle(kpi[0], "train_kpi");
      CountNodeSingle(kpi[2], "train_kpi");
    }
    CountNodeAppend(prefix + rel, kpi, "train_kpi");
    CountNodeAppend(prefix, rel, "train_kpi");
    if s.trainKpi.train {
      CountNodeAppend([kpi[0]] + [kpi[1]], [kpi[2]], "infer_relevance");
      CountNodeAppend([kpi[0]], [kpi[1]], "infer_relevance");
      CountNodeSingle(kpi[0], "infer_relevance");
      CountNodeSingle(kpi[2], "infer_relevance");
    }
    CountNodeAppend(prefix + rel, kpi, "infer_relevance");
    CountNodeAppend(prefix, rel, "infer_relevance");
  }

  /**
    With both training flags off and both servers live (and the two
    extraction requests answering 200), the run succeeds, no training
    request is sent, and both "up" and both "no training" lines are printed.
   */
  lemma NoTrainingRunSucceeds(s: MainSettings, http: Http, merge: MergeOutcome)
    requires !s.trainRelevance.train && !s.trainKpi.train
    requires forall node :: node in ["liveness", "extract", "curate"] ==>
               http(Url(ExtractionAddress(s.general), node)) == 200
    requires http(Url(InferenceAddress(s.general), "liveness")) == 200
    ensures Accumulate(true, http, RunCalls(s))
    ensures |RunCalls(s)| == 4
    ensures RunConsole(s, http, merge) ==
              [ExtractionUp, InferenceUp, RelevanceTrainingStarted, NoRelevanceTraining, NoKpiTraining]
  {
    var calls := RunCalls(s);
    var ext := ExtractionAddress(s.general);
    assert http(Url(ext, "liveness")) == 200;
    assert http(Url(ext, "extract")) == 200;
    assert http(Url(ext, "curate")) == 200;
    AccumulateAllSucceed(true, http, calls);
  }

  /**
    A dead extraction server fails the run, yet "extract" and "curate" are
    still sent and the failure is printed.
   */
  lemma ExtractionDownDoesNotShortCircuit(s: MainSettings, http: Http, merge: MergeOutcome)
    requires http(Url(ExtractionAddress(s.general), "liveness")) != 200
    ensures !Accumulate(true, http, RunCalls(s))
    ensures RunCalls(s)[1].node == "extract" && RunCalls(s)[2].node == "curate"
    ensures RunConsole(s, http, merge)[0] == ExtractionNotResponding
  {
    AccumulateAllSucceed(true, http, RunCalls(s));
    assert IsRequest(RunCalls(s)[0]);
  }

  // ---------------------------------------------------------------------------
  // The router object

  class Router {
    const mainSettings: MainSettings
    var extractionServerAddress: string
    var inferenceServerAddress: string
    var returnValue: bool
    var payload: Payload
    ghost var trace: seq<Call>
    ghost var console: seq<Message>

    /** A fresh router: no addresses, no payload, success flag true. */
    constructor(mainSettings: MainSettings)
      ensures this.mainSettings == mainSettings
      ensures extractionServerAddress == "" && inferenceServerAddress == ""
      ensures returnValue && payload == map[]
      ensures trace == [] && console == []
    {
      this.mainSettings := mainSettings;
      extractionServerAddress := "";
      inferenceServerAddress := "";
      returnValue := true;
      payload := map[];
      trace := [];
      console := [];
    }

    /** The `return_value` property. */
    function ReturnValue(): bool
      reads this
    {
      returnValue
    }

    method SetExtractionServerString()
      modifies this`extractionServerAddress
      ensures extractionServerAddress == ExtractionAddress(mainSettings.general)
    {
      var g := mainSettings.general;
      extractionServerAddress := Scheme + g.extIp + ":" + Decimal.Format(g.extPort);
    }

    method SetInferenceServerString()
      modifies this`inferenceServerAddress
      ensures inferenceServerAddress == InferenceAddress(mainSettings.general)
    {
      var g := mainSettings.general;
      inferenceServerAddress := Scheme + g.inferIp + ":" + Decimal.Format(g.inferPort);
    }

    /** GET {serverAddress}/{node} with the payload; any status but 200 clears the flag. */
    method SendPayloadToServerAddressWithNode(http: Http, serverAddress: string, node: string)
      modifies this`returnValue, this`trace
      ensures returnValue == (old(returnValue) && http(Url(serverAddress, node)) == 200)
      ensures trace == old(trace) + [Dispatch(serverAddress, node, payload)]
    {
      var status := http(Url(serverAddress, node));
      trace := trace + [Dispatch(serverAddress, node, payload)];
      if status != 200 {
        returnValue := false;
      }
    }

    method CheckExtractionServerIsLive(http: Http)
      modifies this`returnValue, this`trace, this`console
      ensures var up := http(Url(extractionServerAddress, "liveness")) == 200;
        returnValue == (old(returnValue) && up) &&
        console == old(console) + [LivenessMessage(true, up)]
      ensures trace == old(trace) + [Liveness(extractionServerAddress)]
    {
      var status := http(Url(extractionServerAddress, "liveness"));
      trace := trace + [Liveness(extractionServerAddress)];
      if status == 200 {
        console := console + [ExtractionUp];
      } else {
        console := console + [ExtractionNotResponding];
        returnValue := false;
      }
    }

    method DefinePayload()
      modifies this`payload
      ensures payload == BuildPayload(mainSettings)
    {
      var fields := map["project_name" := Str(mainSettings.general.projectName), "mode" := Str("train")];
      fields := fields + ModelDump(mainSettings);
      payload := map["payload" := Json(fields)];
    }

    method CheckInferenceServerIsLive(http: Http)
      modifies this`returnValue, this`trace, this`console
      ensures var up := http(Url(inferenceServerAddress, "liveness")) == 200;
        returnValue == (old(returnValue) && up) &&
        console == old(console) + [LivenessMessage(false, up)]
      ensures trace == old(trace) + [Liveness(inferenceServerAddress)]
    {
      var status := http(Url(inferenceServerAddress, "liveness"));
      trace := trace + [Liveness(inferenceServerAddress)];
      if status == 200 {
        console := console + [InferenceUp];
      } else {
        console := console + [InferenceNotResponding];
        returnValue := false;
      }
    }

    method CheckForTrainRelevanceTrainingAndSendRequest(http: Http)
      modifies this`returnValue, this`trace, this`console
      ensures trace == old(trace) + RelevanceCalls(mainSettings.trainRelevance.train, inferenceServerAddress, payload)
      ensures returnValue == (old(returnValue) &&
                (mainSettings.trainRelevance.train ==> http(Url(inferenceServerAddress, "train_relevance")) == 200))
      ensures console == old(console) + RelevanceConsole(mainSettings.trainRelevance.train)
    {
      console := console + [RelevanceTrainingStarted];
      if mainSettings.trainRelevance.train {
        SendPayloadToServerAddressWithNode(http, inferenceServerAddress, "train_relevance");
      } else {
        console := console + [NoRelevanceTraining];
      }
    }

    method CheckForKpiTrainingAndSendRequest(http: Http, merge: MergeOutcome)
      modifies this`returnValue, this`trace, this`console
      ensures trace == old(trace) + KpiCalls(mainSettings.trainKpi.train, inferenceServerAddress, payload, mainSettings.general)
      ensures returnValue == (old(returnValue) &&
                (mainSettings.trainKpi.train ==>
                   http(Url(inferenceServerAddress, "infer_relevance")) == 200 &&
                   http(Url(inferenceServerAddress, "train_kpi")) == 200))
      ensures console == old(console) + KpiConsole(mainSettings.trainKpi.train, merge)
    {
      if mainSettings.trainKpi.train {
        SendPayloadToServerAddressWithNode(http, inferenceServerAddress, "infer_relevance");
        CheckForGenerateText3434(merge);
        console := console + [KpiTrainingNext];
        SendPayloadToServerAddressWithNode(http, inferenceServerAddress, "train_kpi");
      } else {
        console := console + [NoKpiTraining];
      }
    }

    /** Calls the merge routine; its result or error is only printed, never recorded in the flag. */
    method CheckForGenerateText3434(merge: MergeOutcome)
      modifies this`trace, this`console
      ensures trace == old(trace) + [Merge(mainSettings.general.projectName, mainSettings.general.s3Usage)]
      ensures console == old(console) + [MergeMessage(merge)]
    {
      trace := trace + [Merge(mainSettings.general.projectName, mainSettings.general.s3Usage)];
      match merge
      case Generated =>
        console := console + [TextGenerated];
      case NotGenerated =>
        console := console + [TextNotGenerated];
      case Raised =>
        console := console + [TextError];
    }

    /**
      The whole run. The requests issued are those of RunCalls, whatever the
      answers; the flag is the old flag accumulated over them (the run does not
      reset it), and the merge outcome changes only what is printed.
     */
    method RunRouter(http: Http, merge: MergeOutcome)
      modifies this`extractionServerAddress, this`inferenceServerAddress, this`payload
      modifies this`returnValue, this`trace, this`console
      ensures extractionServerAddress == ExtractionAddress(mainSettings.general)
      ensures inferenceServerAddress == InferenceAddress(mainSettings.general)
      ensures payload == BuildPayload(mainSettings)
      ensures trace == old(trace) + RunCalls(mainSettings)
      ensures returnValue == Accumulate(old(returnValue), http, RunCalls(mainSettings))
      ensures console == old(console) + RunConsole(mainSettings, http, merge)
    {
      ghost var t0, c0 := trace, console;
      ghost var calls := PrefixCalls(mainSettings);
      AccumulateRun(old(returnValue), http, mainSettings);
      SetExtractionServerString();
      SetInferenceServerString();

      CheckExtractionServerIsLive(http);
      DefinePayload();

      SendPayloadToServerAddressWithNode(http, extractionServerAddress, "extract");
      SendPayloadToServerAddressWithNode(http, extractionServerAddress, "curate");

      CheckInferenceServerIsLive(http);
      assert trace == t0 + calls by {
        AppendFour(t0, calls);
      }
      assert console == c0 + PrefixConsole(mainSettings, http) by {
        assert c0 + [console[|c0|]] + [console[|c0| + 1]] == c0 + [console[|c0|], console[|c0| + 1]];
      }
      ghost var rel := RelevanceCalls(mainSettings.trainRelevance.train, inferenceServerAddress, payload);
      ghost var kpi := KpiCalls(mainSettings.trainKpi.train, inferenceServerAddress, payload, mainSettings.general);
      ghost var relOut := RelevanceConsole(mainSettings.trainRelevance.train);
      ghost var kpiOut := KpiConsole(mainSettings.trainKpi.train, merge);

      CheckForTrainRelevanceTrainingAndSendRequest(http);
      CheckForKpiTrainingAndSendRequest(http, merge);

      ConcatAssoc(t0, calls, rel, kpi);
      ConcatAssoc(c0, PrefixConsole(mainSettings, http), relOut, kpiOut);
    }
  }
}
