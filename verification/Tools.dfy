/** Tool calls, their routing, and the observations recorded for them (internal/investigation/agent/tools.go). */
module Tools {
  import opened Text
  import opened Investigation
  import opened Conclusions
  import opened Prompts

  /** Why a call's arguments cannot be used; a later check overwrites an earlier one. */
  datatype CallError = Usable | NotAnObject | BadIntegration | BadInput | BadPurpose | ExtraFields

  datatype ToolCall = ToolCall(
    id: string, tool: string, integration: string, purpose: string, arguments: string,
    beforeSequence: Option<int>, error: CallError)

  function CallIds(calls: seq<ToolCall>): seq<string> {
    seq(|calls|, i requires 0 <= i < |calls| => calls[i].id)
  }

  // --- decoding --------------------------------------------------------------------------------

  /** The arguments a read accepts: an object input, optional text around it, and nothing else. */
  predicate WellFormed(call: CompletionCall) {
    call.arguments.envelope.Some?
    && (call.name != HISTORY_TOOL ==>
          var e := call.arguments.envelope.value;
          && e.input.ObjectMember?
          && (e.integration.Absent? || (e.integration.TextMember? && e.integration.text != ""))
          && (e.purpose.Absent? || e.purpose.TextMember?)
          && !e.extraFields)
  }

  /** The last of the checks that fails names what is wrong. */
  function Fault(e: Envelope): CallError {
    if e.extraFields then ExtraFields
    else if !e.purpose.Absent? && !e.purpose.TextMember? then BadPurpose
    else if !e.input.ObjectMember? then BadInput
    else if !e.integration.Absent? && (!e.integration.TextMember? || e.integration.text == "") then BadIntegration
    else Usable
  }

  function TextOf(m: Member): string {
    if m.TextMember? then m.text else ""
  }

  /** The call as decoding leaves it, with what could be read of a malformed one. */
  function Decoded(call: CompletionCall): ToolCall {
    if call.arguments.envelope.None? then ToolCall(call.id, call.name, "", "", "", None, NotAnObject)
    else if call.name == HISTORY_TOOL then
      ToolCall(call.id, call.name, "", "", call.arguments.encoded, call.arguments.beforeSequence, Usable)
    else
      var e := call.arguments.envelope.value;
      ToolCall(call.id, call.name, TextOf(e.integration), TextOf(e.purpose),
               if e.input.ObjectMember? then e.input.encoded else "", None, Fault(e))
  }

  /** What the model is told of a call it cannot use. */
  function Complaint(error: CallError): string {
    match error
    case Usable => ""
    case NotAnObject => "Tool arguments must be a valid JSON object"
    case BadIntegration => "Tool integrationId must be a nonempty string when supplied"
    case BadInput => "Tool input must be a JSON object"
    case BadPurpose => "Tool purpose must be a string when supplied"
    case ExtraFields => "Tool arguments accept only input, optional purpose and source selection"
  }

  method DecodeToolCall(call: CompletionCall) returns (decoded: ToolCall)
    ensures decoded == Decoded(call)
    ensures decoded.id == call.id && decoded.tool == call.name
    ensures decoded.error == Usable <==> WellFormed(call)
    ensures WellFormed(call) && call.name == HISTORY_TOOL ==>
              decoded.arguments == call.arguments.encoded && decoded.beforeSequence == call.arguments.beforeSequence
    ensures WellFormed(call) && call.name != HISTORY_TOOL ==>
              var e := call.arguments.envelope.value;
              && decoded.arguments == e.input.encoded
              && decoded.integration == (if e.integration.Absent? then "" else e.integration.text)
              && decoded.purpose == (if e.purpose.Absent? then "" else e.purpose.text)
  {
    decoded := ToolCall(call.id, call.name, "", "", "", None, Usable);
    if call.arguments.envelope.None? {
      return decoded.(error := NotAnObject);
    }
    if call.name == HISTORY_TOOL {
      return decoded.(arguments := call.arguments.encoded, beforeSequence := call.arguments.beforeSequence);
    }
    var e := call.arguments.envelope.value;
    if !e.integration.Absent? {
      if !e.integration.TextMember? || e.integration.text == "" {
        decoded := decoded.(error := BadIntegration);
      } else {
        decoded := decoded.(integration := e.integration.text);
      }
    }
    if !e.input.ObjectMember? {
      decoded := decoded.(error := BadInput);
    } else {
      decoded := decoded.(arguments := e.input.encoded);
    }
    if !e.purpose.Absent? {
      if e.purpose.TextMember? {
        decoded := decoded.(purpose := e.purpose.text);
      } else {
        decoded := decoded.(error := BadPurpose);
      }
    }
    if e.extraFields {
      decoded := decoded.(error := ExtraFields);
    }
  }

  predicate AllDecoded(decoded: seq<ToolCall>, calls: seq<CompletionCall>) {
    |decoded| == |calls| && forall i :: 0 <= i < |calls| ==> decoded[i] == Decoded(calls[i])
  }

  /** One decoded call per read, in order, under the same ID; a malformed one is kept so it can be answered. */
  method DecodeToolCalls(calls: seq<CompletionCall>) returns (decoded: seq<ToolCall>)
    ensures CallIds(decoded) == Ids(calls)
    ensures AllDecoded(decoded, calls)
    ensures forall i :: 0 <= i < |calls| ==>
              decoded[i].tool == calls[i].name && (decoded[i].error == Usable <==> WellFormed(calls[i]))
  {
    decoded := [];
    for i := 0 to |calls|
      invariant |decoded| == i
      invariant forall j :: 0 <= j < i ==>
                  decoded[j] == Decoded(calls[j]) && (decoded[j].error == Usable <==> WellFormed(calls[j]))
    {
      var one := DecodeToolCall(calls[i]);
      decoded := decoded + [one];
    }
  }

  // --- routing ---------------------------------------------------------------------------------

  predicate Serves(source: Source, call: ToolCall) {
    call.integration == "" || source.integration == call.integration
  }

  /** Every offered (source, tool) pair the call could mean, in order. */
  function Named(tools: seq<string>, name: string): nat {
    if tools == [] then 0 else (if tools[|tools| - 1] == name then 1 else 0) + Named(tools[..|tools| - 1], name)
  }

  function Matches(sources: seq<Source>, call: ToolCall): nat {
    if sources == [] then 0
    else
      var n := |sources| - 1;
      Matches(sources[..n], call) + (if Serves(sources[n], call) then Named(sources[n].tools, call.tool) else 0)
  }

  method CountNamed(tools: seq<string>, name: string) returns (count: nat)
    ensures count == Named(tools, name)
  {
    count := 0;
    for i := 0 to |tools|
      invariant count == Named(tools[..i], name)
    {
      assert tools[..i + 1][..i] == tools[..i];
      if tools[i] == name { count := count + 1; }
    }
    assert tools[..|tools|] == tools;
  }

  /** The last source that could serve the call. */
  function LastMatch(sources: seq<Source>, call: ToolCall): Option<Source> {
    if sources == [] then None
    else
      var n := |sources| - 1;
      if Serves(sources[n], call) && Named(sources[n].tools, call.tool) > 0 then Some(sources[n])
      else LastMatch(sources[..n], call)
  }

  /** Where a call goes: it must be able to mean one offered tool only. */
  function Route(sources: seq<Source>, call: ToolCall): Option<Source> {
    if Matches(sources, call) == 1 then LastMatch(sources, call) else None
  }

  method ToolNamed(sources: seq<Source>, call: ToolCall) returns (source: Option<Source>)
    ensures source == Route(sources, call)
  {
    source := None;
    var found := 0;
    for i := 0 to |sources|
      invariant found == Matches(sources[..i], call) && source == LastMatch(sources[..i], call)
    {
      assert sources[..i + 1][..i] == sources[..i];
      if Serves(sources[i], call) {
        var count := CountNamed(sources[i].tools, call.tool);
        if count > 0 {
          source := Some(sources[i]);
          found := found + count;
        }
      }
    }
    assert sources[..|sources|] == sources;
    if found != 1 { source := None; }
  }

  lemma {:induction false} NamedIsPresent(tools: seq<string>, name: string)
    requires Named(tools, name) > 0
    ensures name in tools
  {
    if tools[|tools| - 1] != name { NamedIsPresent(tools[..|tools| - 1], name); }
  }

  /** A routed call reaches an offered source that serves it, and no call with a match goes unrouted for want of one. */
  lemma {:induction false} RouteServes(sources: seq<Source>, call: ToolCall)
    ensures Matches(sources, call) > 0 <==> LastMatch(sources, call).Some?
    ensures LastMatch(sources, call).Some? ==>
              var source := LastMatch(sources, call).value;
              source in sources && Serves(source, call) && call.tool in source.tools
  {
    if sources != [] {
      var n := |sources| - 1;
      RouteServes(sources[..n], call);
      if Named(sources[n].tools, call.tool) > 0 { NamedIsPresent(sources[n].tools, call.tool); }
    }
  }

  /** Tool j of source i could be meant by the call. */
  predicate CouldMean(sources: seq<Source>, call: ToolCall, i: nat, j: nat) {
    i < |sources| && Serves(sources[i], call) && j < |sources[i].tools| && sources[i].tools[j] == call.tool
  }

  /** And no other could. */
  predicate MeansOnly(sources: seq<Source>, call: ToolCall, i: nat, j: nat) {
    && CouldMean(sources, call, i, j)
    && forall k, m :: 0 <= k < |sources| && 0 <= m < |sources[k].tools| && CouldMean(sources, call, k, m) ==>
                        k == i && m == j
  }

  predicate NamedOnly(tools: seq<string>, name: string, j: nat) {
    j < |tools| && tools[j] == name && forall m :: 0 <= m < |tools| && tools[m] == name ==> m == j
  }

  lemma {:induction false} NamedOnce(tools: seq<string>, name: string)
    ensures Named(tools, name) == 0 <==> name !in tools
    ensures Named(tools, name) == 1 <==> exists j :: 0 <= j < |tools| && NamedOnly(tools, name, j)
  {
    if tools != [] {
      var n := |tools| - 1;
      NamedOnce(tools[..n], name);
      assert tools == tools[..n] + [tools[n]];
      if tools[n] == name {
        if name !in tools[..n] { assert NamedOnly(tools, name, n); }
      } else if j :| 0 <= j < n && NamedOnly(tools[..n], name, j) {
        assert NamedOnly(tools, name, j);
      } else if j :| 0 <= j < n && NamedOnly(tools, name, j) {
        assert NamedOnly(tools[..n], name, j);
      }
    }
  }

  predicate NoneMeant(sources: seq<Source>, call: ToolCall) {
    forall i, j :: 0 <= i < |sources| && 0 <= j < |sources[i].tools| ==> !CouldMean(sources, call, i, j)
  }

  predicate OneMeant(sources: seq<Source>, call: ToolCall) {
    exists i, j :: 0 <= i < |sources| && 0 <= j < |sources[i].tools| && MeansOnly(sources, call, i, j)
  }

  /** What the sources before the last could mean, they still could. */
  lemma {:induction false} MeansBefore(sources: seq<Source>, call: ToolCall)
    requires sources != []
    ensures var n := |sources| - 1;
            forall i: nat, j: nat :: i < n ==> (CouldMean(sources[..n], call, i, j) <==> CouldMean(sources, call, i, j))
  {
  }

  /** The last source could not be meant, so nothing depends on it. */
  lemma {:induction false} LastIsNotMeant(sources: seq<Source>, call: ToolCall)
    requires sources != []
    requires !Serves(sources[|sources| - 1], call) || call.tool !in sources[|sources| - 1].tools
    ensures NoneMeant(sources, call) <==> NoneMeant(sources[..|sources| - 1], call)
    ensures OneMeant(sources, call) <==> OneMeant(sources[..|sources| - 1], call)
  {
    var n := |sources| - 1;
    MeansBefore(sources, call);
    if i, j :| 0 <= i < n && 0 <= j < |sources[i].tools| && MeansOnly(sources[..n], call, i, j) {
      assert MeansOnly(sources, call, i, j);
    }
    if i, j :| 0 <= i < |sources| && 0 <= j < |sources[i].tools| && MeansOnly(sources, call, i, j) {
      assert MeansOnly(sources[..n], call, i, j);
    }
    if NoneMeant(sources[..n], call) {
      forall i, j | 0 <= i < |sources| && 0 <= j < |sources[i].tools| ensures !CouldMean(sources, call, i, j) {
        if i < n { assert !CouldMean(sources[..n], call, i, j); }
      }
    }
    if NoneMeant(sources, call) {
      forall i, j | 0 <= i < n && 0 <= j < |sources[i].tools| ensures !CouldMean(sources[..n], call, i, j) {
        assert !CouldMean(sources, call, i, j);
      }
    }
  }

  /** The last source could be meant: it alone is, exactly if no other could and it names the tool once. */
  lemma {:induction false} LastIsMeant(sources: seq<Source>, call: ToolCall)
    requires sources != []
    requires Serves(sources[|sources| - 1], call) && call.tool in sources[|sources| - 1].tools
    ensures !NoneMeant(sources, call)
    ensures OneMeant(sources, call) <==>
              && NoneMeant(sources[..|sources| - 1], call)
              && Named(sources[|sources| - 1].tools, call.tool) == 1
  {
    var n := |sources| - 1;
    var tools := sources[n].tools;
    MeansBefore(sources, call);
    NamedOnce(tools, call.tool);
    var m :| 0 <= m < |tools| && tools[m] == call.tool;
    assert CouldMean(sources, call, n, m);
    if OneMeant(sources, call) {
      var i, j :| 0 <= i < |sources| && 0 <= j < |sources[i].tools| && MeansOnly(sources, call, i, j);
      assert i == n && j == m;
      forall k, l | 0 <= k < n && 0 <= l < |sources[k].tools| ensures !CouldMean(sources[..n], call, k, l) {
        assert CouldMean(sources[..n], call, k, l) <==> CouldMean(sources, call, k, l);
      }
      forall l | 0 <= l < |tools| && tools[l] == call.tool ensures l == m {
        assert CouldMean(sources, call, n, l);
      }
      assert NamedOnly(tools, call.tool, m);
    }
    if NoneMeant(sources[..n], call) && Named(tools, call.tool) == 1 {
      forall k, l | 0 <= k < |sources| && 0 <= l < |sources[k].tools|
        ensures CouldMean(sources, call, k, l) ==> k == n && l == m
      {
        if k < n { assert !CouldMean(sources[..n], call, k, l); }
      }
      assert MeansOnly(sources, call, n, m);
    }
  }

  lemma {:induction false} MatchesMeant(sources: seq<Source>, call: ToolCall)
    ensures Matches(sources, call) == 0 <==> NoneMeant(sources, call)
    ensures Matches(sources, call) == 1 <==> OneMeant(sources, call)
  {
    if sources != [] {
      var n := |sources| - 1;
      MatchesMeant(sources[..n], call);
      NamedOnce(sources[n].tools, call.tool);
      if Serves(sources[n], call) && call.tool in sources[n].tools {
        LastIsMeant(sources, call);
      } else {
        LastIsNotMeant(sources, call);
      }
    }
  }

  /** A call is routed if and only if it could mean one offered tool only, and then to the source of that tool. */
  lemma {:induction false} RoutesExactlyWhen(sources: seq<Source>, call: ToolCall)
    ensures Route(sources, call).Some? <==> OneMeant(sources, call)
    ensures forall i, j :: 0 <= i < |sources| && 0 <= j < |sources[i].tools| && MeansOnly(sources, call, i, j) ==>
                             Route(sources, call) == Some(sources[i])
  {
    MatchesMeant(sources, call);
    RouteServes(sources, call);
    if OneMeant(sources, call) {
      var source := LastMatch(sources, call).value;
      var k :| 0 <= k < |sources| && sources[k] == source;
      var m :| 0 <= m < |source.tools| && source.tools[m] == call.tool;
      assert CouldMean(sources, call, k, m);
    }
  }

  /** The call with the identity of the source it was routed to. */
  function Routed(sources: seq<Source>, call: ToolCall): ToolCall {
    match Route(sources, call)
    case None => call
    case Some(source) => call.(integration := source.integration)
  }

  /** `callIdentityOf`: two calls of one batch with this text are one request. */
  function Identity(call: ToolCall): string {
    call.tool + " " + call.integration + " " + call.arguments
  }

  /** Of one tool and source, just the calls with the same arguments share an identity. */
  lemma {:induction false} IdentityTellsArguments(a: ToolCall, b: ToolCall)
    requires a.tool == b.tool && a.integration == b.integration
    ensures Identity(a) == Identity(b) <==> a.arguments == b.arguments
  {
    var front := a.tool + " " + a.integration + " ";
    assert Identity(a) == front + a.arguments && Identity(b) == front + b.arguments;
    assert Identity(a)[|front|..] == a.arguments && Identity(b)[|front|..] == b.arguments;
  }

  /** A text cut at its first space. */
  lemma {:induction false} FirstSpace(a: string, x: string, b: string, y: string)
    requires ' ' !in a && ' ' !in b && a + " " + x == b + " " + y
    ensures a == b && x == y
  {
    var s, t := a + " " + x, b + " " + y;
    assert s[|a|] == ' ' && t[|b|] == ' ';
    assert s[..|a|] == a && t[..|b|] == b && s[|a| + 1..] == x && t[|b| + 1..] == y;
  }

  /** Where no tool and no source has a space in its name, an identity tells all three apart. */
  lemma {:induction false} IdentityTellsCalls(a: ToolCall, b: ToolCall)
    requires ' ' !in a.tool && ' ' !in b.tool && ' ' !in a.integration && ' ' !in b.integration
    ensures Identity(a) == Identity(b) <==>
              a.tool == b.tool && a.integration == b.integration && a.arguments == b.arguments
  {
    if Identity(a) == Identity(b) {
      var x, y := a.integration + " " + a.arguments, b.integration + " " + b.arguments;
      assert Identity(a) == a.tool + " " + x && Identity(b) == b.tool + " " + y;
      FirstSpace(a.tool, x, b.tool, y);
      FirstSpace(a.integration, a.arguments, b.integration, b.arguments);
    }
  }

  /** With a space in a name it does not: two tools under two sources, one identity. */
  lemma {:induction false} IdentityMayCollide(a: ToolCall, b: ToolCall)
    requires a.tool == "a b" && a.integration == "c" && a.arguments == "{}"
    requires b.tool == "a" && b.integration == "b c" && b.arguments == "{}"
    ensures Identity(a) == Identity(b)
  {
    assert Identity(a) == "a b c {}" && Identity(b) == "a b c {}";
  }

  // --- observations ----------------------------------------------------------------------------

  const MAX_OBSERVATION: nat := 65536
  const MAX_TOOL_RUNES: nat := 128
  const MAX_PURPOSE: nat := 512
  const MAX_RUN_SUMMARY: nat := 512
  const MAX_RUN_ERROR: nat := 1024

  /** Removes every opened credential from text and from encoded arguments; nothing is assumed of it. */
  datatype Redactor = Redactor(text: string -> string, arguments: string -> string)

  function Joined(texts: seq<string>): string {
    if texts == [] then ""
    else if |texts| == 1 then texts[0]
    else Joined(texts[..|texts| - 1]) + "," + texts[|texts| - 1]
  }

  function Opened(texts: seq<string>): string {
    "[" + Joined(texts)
  }

  function Bracketed(texts: seq<string>): string {
    Opened(texts) + "]"
  }

  /** The first `k` elements, encoded and redacted. */
  function Texts(elements: seq<Option<string>>, k: nat, redact: string -> string): seq<string>
    requires k <= |elements| && Encodable(elements, k)
  {
    seq(k, i requires 0 <= i < k => redact(elements[i].value))
  }

  predicate Encodable(elements: seq<Option<string>>, k: nat)
    requires k <= |elements|
  {
    forall i :: 0 <= i < k ==> elements[i].Some?
  }

  predicate FitsList(elements: seq<Option<string>>, k: nat, redact: string -> string)
    requires k <= |elements|
  {
    Encodable(elements, k) && Bytes(Bracketed(Texts(elements, k, redact))) <= MAX_RUN_CONTENT
  }

  lemma {:induction false} BytesOfBracketed(texts: seq<string>)
    ensures Bytes(Bracketed(texts)) == 2 + Bytes(Joined(texts))
  {
    BytesOfConcat("[", Joined(texts));
    BytesOfConcat(Opened(texts), "]");
  }

  lemma {:induction false} BytesOfJoinedAppend(texts: seq<string>, text: string)
    ensures Bytes(Joined(texts + [text])) == Bytes(Joined(texts)) + Bytes(text) + (if texts == [] then 0 else 1)
  {
    var all := texts + [text];
    assert all[..|texts|] == texts && all[|texts|] == text;
    if texts != [] {
      BytesOfConcat(Joined(texts) + ",", text);
      BytesOfConcat(Joined(texts), ",");
    }
  }

  lemma TextsStep(elements: seq<Option<string>>, k: nat, redact: string -> string)
    requires k < |elements| && Encodable(elements, k + 1)
    ensures Texts(elements, k + 1, redact) == Texts(elements, k, redact) + [redact(elements[k].value)]
  {
  }

  lemma {:induction false} LongerIsNotShorter(elements: seq<Option<string>>, k: nat, j: nat, redact: string -> string)
    requires k <= j <= |elements| && Encodable(elements, j)
    ensures Bytes(Bracketed(Texts(elements, k, redact))) <= Bytes(Bracketed(Texts(elements, j, redact)))
  {
    if k < j {
      LongerIsNotShorter(elements, k, j - 1, redact);
      TextsStep(elements, j - 1, redact);
      var front := Texts(elements, j - 1, redact);
      BytesOfJoinedAppend(front, redact(elements[j - 1].value));
      BytesOfBracketed(front);
      BytesOfBracketed(Texts(elements, j, redact));
    }
  }

  function CutNote(kept: nat, total: nat): string {
    " … [" + Decimal(kept) + " of " + Decimal(total) + " items; the rest cut at " + Decimal(MAX_RUN_CONTENT) + " bytes]"
  }

  /** One more element: what the builder holds, and what the bracketed form would take. */
  lemma {:induction false} BodyStep(elements: seq<Option<string>>, k: nat, redact: string -> string)
    requires k < |elements| && Encodable(elements, k + 1)
    ensures var front, text := Texts(elements, k, redact), redact(elements[k].value);
            && Opened(Texts(elements, k + 1, redact)) == Opened(front) + (if k > 0 then "," else "") + text
            && Bytes(Bracketed(Texts(elements, k + 1, redact)))
               == Bytes(Opened(front)) + Bytes(text) + (if k > 0 then 2 else 1)
  {
    var front, text := Texts(elements, k, redact), redact(elements[k].value);
    TextsStep(elements, k, redact);
    var all := front + [text];
    assert all[..k] == front && all[k] == text;
    BytesOfJoinedAppend(front, text);
    BytesOfBracketed(all);
    BytesOfConcat("[", Joined(front));
  }

  /** The first `k` elements fit, and no longer prefix does. */
  predicate LongestFit(elements: seq<Option<string>>, k: nat, redact: string -> string) {
    && k <= |elements| && FitsList(elements, k, redact)
    && forall j :: k < j <= |elements| ==> !FitsList(elements, j, redact)
  }

  /** The first `k` elements as a list, with a note when that is not all of them. */
  function ListText(elements: seq<Option<string>>, k: nat, redact: string -> string): string
    requires k <= |elements| && Encodable(elements, k)
  {
    Bracketed(Texts(elements, k, redact)) + (if k < |elements| then CutNote(k, |elements|) else "")
  }

  method KeepPrefix(elements: seq<Option<string>>, redact: string -> string) returns (body: string, kept: nat)
    ensures kept <= |elements| && FitsList(elements, kept, redact)
    ensures kept < |elements| ==> !FitsList(elements, kept + 1, redact)
    ensures body == Opened(Texts(elements, kept, redact))
  {
    body := "[";
    kept := 0;
    BytesOfBracketed(Texts(elements, 0, redact));
    while kept < |elements|
      invariant kept <= |elements| && FitsList(elements, kept, redact)
      invariant body == Opened(Texts(elements, kept, redact))
    {
      if elements[kept].None? { break; }
      var text := redact(elements[kept].value);
      BodyStep(elements, kept, redact);
      var punctuation := if kept > 0 then 2 else 1;
      if Bytes(body) + Bytes(text) + punctuation > MAX_RUN_CONTENT { break; }
      body := body + (if kept > 0 then "," else "") + text;
      kept := kept + 1;
    }
  }

  /** Keeps exactly the longest prefix whose bracketed, comma-joined form fits, and says what it cut. */
  method BoundedList(elements: seq<Option<string>>, redact: string -> string) returns (rendered: string, kept: nat)
    ensures LongestFit(elements, kept, redact)
    ensures rendered == ListText(elements, kept, redact)
  {
    var body;
    body, kept := KeepPrefix(elements, redact);
    NothingLongerFits(elements, kept, redact);
    rendered := body + "]";
    if kept < |elements| { rendered := rendered + CutNote(kept, |elements|); }
  }

  lemma {:induction false} NothingLongerFits(elements: seq<Option<string>>, k: nat, redact: string -> string)
    requires k <= |elements| && (k < |elements| ==> !FitsList(elements, k + 1, redact))
    ensures forall j :: k < j <= |elements| ==> !FitsList(elements, j, redact)
  {
    forall j | k < j <= |elements| ensures !FitsList(elements, j, redact) {
      if FitsList(elements, j, redact) {
        LongerIsNotShorter(elements, k + 1, j, redact);
      }
    }
  }

  /** `strings.ToValidUTF8(text[:limit], "")`: the longest run of whole characters within `limit` bytes. */
  function CutBytes(s: string, limit: nat): (r: string)
    ensures r <= s && Bytes(r) <= limit
    ensures |r| < |s| ==> Bytes(r) + Width(s[|r|]) > limit
  {
    if s == "" || Width(s[0]) > limit then ""
    else
      var rest := CutBytes(s[1..], limit - Width(s[0]));
      assert ([s[0]] + rest)[1..] == rest;
      [s[0]] + rest
  }

  /** The whole content as one JSON text; None when some part of it does not encode. */
  function WholeText(content: Content): Option<string> {
    match content
    case NoContent => Some("null")
    case Unencodable => None
    case Encoded(json) => Some(json)
    case Listed(elements) =>
      if Encodable(elements, |elements|) then Some(Bracketed(Texts(elements, |elements|, x => x))) else None
  }

  const NOT_RENDERED := "\"the content could not be rendered\""

  function CutText(text: string): string {
    CutBytes(text, MAX_RUN_CONTENT) + "… [cut at " + Decimal(MAX_RUN_CONTENT) + " bytes]"
  }

  predicate FitsWhole(content: Content, redact: string -> string) {
    content.NoContent? || (WholeText(content).Some? && Bytes(redact(WholeText(content).value)) <= MAX_RUN_CONTENT)
  }

  /** All of what fits; of a list that does not, as many elements as do; of anything else, as many bytes. */
  ghost predicate Shown(content: Content, redact: string -> string, text: string) {
    var whole := WholeText(content);
    if content.NoContent? then text == "null"
    else if whole.None? then text == NOT_RENDERED
    else if FitsWhole(content, redact) then text == redact(whole.value)
    else
      || (content.Listed? && exists k: nat :: k > 0 && LongestFit(content.elements, k, redact)
                                              && text == ListText(content.elements, k, redact))
      || ((content.Listed? ==> LongestFit(content.elements, 0, redact)) && text == CutText(redact(whole.value)))
  }

  method BoundedJson(content: Content, redact: string -> string) returns (text: string, clipped: bool)
    ensures !clipped <==> FitsWhole(content, redact)
    ensures Shown(content, redact, text)
  {
    if content.NoContent? { return "null", false; }
    var whole := WholeText(content);
    if whole.None? { return NOT_RENDERED, true; }
    text := redact(whole.value);
    if Bytes(text) <= MAX_RUN_CONTENT { return text, false; }
    if content.Listed? {
      var rendered, kept := BoundedList(content.elements, redact);
      if kept > 0 { return rendered, true; }
    }
    text := CutText(text);
    clipped := true;
  }

  /** What a Go `int` can hold. */
  predicate FitsInt(n: nat) {
    n < 0x8000_0000_0000_0000
  }

  lemma {:induction false} IntHasFewDigits(n: nat)
    requires FitsInt(n)
    ensures |Decimal(n)| <= 19
  {
    assert Power10(4) == 10 * Power10(3) == 100 * Power10(2) == 1000 * Power10(1) == 10_000 * Power10(0);
    assert Power10(8) == 10 * Power10(7) == 100 * Power10(6) == 1000 * Power10(5) == 10_000 * Power10(4);
    assert Power10(12) == 10 * Power10(11) == 100 * Power10(10) == 1000 * Power10(9) == 10_000 * Power10(8);
    assert Power10(16) == 10 * Power10(15) == 100 * Power10(14) == 1000 * Power10(13) == 10_000 * Power10(12);
    assert Power10(19) == 10 * Power10(18) == 100 * Power10(17) == 1000 * Power10(16);
    DecimalLength(n, 19);
  }

  function Unavailable(ordinal: nat, tool: string): string {
    "[run " + Decimal(ordinal) + "] " + tool + " {}\n"
    + "OBSERVATION UNAVAILABLE: prepared result exceeded 65536 bytes; arguments and content were omitted.\n"
  }

  lemma {:induction false} UnavailableIsSmall(ordinal: nat, tool: string)
    requires FitsInt(ordinal) && |tool| <= MAX_TOOL_RUNES
    ensures Bytes(Unavailable(ordinal, tool)) <= MAX_OBSERVATION
  {
    IntHasFewDigits(ordinal);
    BytesBounds(Unavailable(ordinal, tool));
  }

  /** A prepared run: bounded, with an observation to show and nothing raw left to leak. */
  predicate Prepared(run: ToolRun) {
    && run.observation.Some? && run.content.NoContent?
    && |run.tool| <= MAX_TOOL_RUNES && |run.purpose| <= MAX_PURPOSE
    && |run.summary| <= MAX_RUN_SUMMARY && |run.error| <= MAX_RUN_ERROR
    && (FitsInt(run.ordinal) ==> Bytes(run.observation.value) <= MAX_OBSERVATION)
  }

  const MAY_BE_INCOMPLETE := "SOURCE: this result may be incomplete; additional records are not proven."

  function Header(run: ToolRun): string {
    "[run " + Decimal(run.ordinal) + "] " + run.tool + " " + run.arguments
  }

  /** The lines of a successful run before its content. */
  function Preface(run: ToolRun): seq<string> {
    [Header(run)] + WindowLine(run) + SummaryLine(run) + SourceLine(run)
  }

  function WindowLine(run: ToolRun): seq<string> {
    if run.window.Some? then ["WINDOW: effective bounds " + run.window.value] else []
  }

  function SummaryLine(run: ToolRun): seq<string> {
    if run.summary != "" then ["SUMMARY: " + run.summary] else []
  }

  function SourceLine(run: ToolRun): seq<string> {
    if run.truncated then [MAY_BE_INCOMPLETE] else []
  }

  function Unlines(lines: seq<string>): string {
    if lines == [] then "" else Unlines(lines[..|lines| - 1]) + lines[|lines| - 1] + "\n"
  }

  lemma {:induction false} UnlinesAppend(lines: seq<string>, line: string)
    ensures Unlines(lines + [line]) == Unlines(lines) + line + "\n"
  {
    assert (lines + [line])[..|lines|] == lines;
  }

  /** What a reader of the run sees when nothing is too long: a failed run's error, or a successful one's content. */
  ghost predicate Rendering(run: ToolRun, redactor: Redactor, text: string) {
    if run.outcome == RunFailed then text == Unlines([Header(run), "FAILED: " + run.error])
    else exists content :: Shown(run.content, redactor.text, content)
                           && text == Unlines(Preface(run) + ["CONTENT: " + content])
  }

  /** Writes a line where there is one. */
  method WriteLine(text: string, ghost lines: seq<string>, line: seq<string>) returns (written: string)
    requires text == Unlines(lines) && |line| <= 1
    ensures written == Unlines(lines + line)
  {
    if line == [] {
      assert lines + line == lines;
      return text;
    }
    assert line == [line[0]];
    UnlinesAppend(lines, line[0]);
    written := text + line[0] + "\n";
  }

  method RenderPreface(run: ToolRun) returns (text: string)
    ensures text == Unlines(Preface(run))
  {
    text := WriteLine("", [], [Header(run)]);
    assert [] + [Header(run)] == [Header(run)];
    text := WriteLine(text, [Header(run)], WindowLine(run));
    text := WriteLine(text, [Header(run)] + WindowLine(run), SummaryLine(run));
    text := WriteLine(text, [Header(run)] + WindowLine(run) + SummaryLine(run), SourceLine(run));
  }

  method RenderObservation(run: ToolRun, redactor: Redactor) returns (text: string, clipped: bool)
    ensures Rendering(run, redactor, text)
    ensures clipped <==> run.outcome == RunSucceeded && !FitsWhole(run.content, redactor.text)
  {
    clipped := false;
    if run.outcome == RunFailed {
      text := WriteLine("", [], [Header(run)]);
      text := WriteLine(text, [] + [Header(run)], ["FAILED: " + run.error]);
      assert [] + [Header(run)] + ["FAILED: " + run.error] == [Header(run), "FAILED: " + run.error];
      return;
    }
    text := RenderPreface(run);
    var content;
    content, clipped := BoundedJson(run.content, redactor.text);
    text := WriteLine(text, Preface(run), ["CONTENT: " + content]);
  }

  /** The run with its texts redacted and cut, before its observation is rendered. */
  function Cleaned(run: ToolRun, redactor: Redactor): (cleaned: ToolRun)
    ensures |cleaned.tool| <= MAX_TOOL_RUNES && |cleaned.purpose| <= MAX_PURPOSE
    ensures |cleaned.summary| <= MAX_RUN_SUMMARY && |cleaned.error| <= MAX_RUN_ERROR
  {
    run.(arguments := redactor.arguments(run.arguments),
         tool := BoundRunes(redactor.text(run.tool), MAX_TOOL_RUNES),
         purpose := BoundRunes(redactor.text(run.purpose), MAX_PURPOSE),
         summary := BoundRunes(redactor.text(run.summary), MAX_RUN_SUMMARY),
         error := BoundRunes(redactor.text(run.error), MAX_RUN_ERROR))
  }

  /**
   The observation is the whole rendering, or, past the limit, a note that says there is none, and then the
   arguments go too. The run is marked clipped exactly when its content or its whole observation was cut.
   */
  ghost predicate Observes(prepared: ToolRun, cleaned: ToolRun, redactor: Redactor) {
    exists text :: Rendering(cleaned, redactor, text) && ObservedAs(prepared, cleaned, redactor, text)
  }

  predicate ObservedAs(prepared: ToolRun, cleaned: ToolRun, redactor: Redactor, text: string) {
    && prepared.observation == Some(Limited(text, cleaned.ordinal, cleaned.tool))
    && prepared.arguments == (if Bytes(text) <= MAX_OBSERVATION then cleaned.arguments else "{}")
    && (prepared.modelClipped <==>
          || Bytes(text) > MAX_OBSERVATION
          || (cleaned.outcome == RunSucceeded && !FitsWhole(cleaned.content, redactor.text)))
  }

  function Limited(text: string, ordinal: nat, tool: string): string {
    if Bytes(text) <= MAX_OBSERVATION then text else Unavailable(ordinal, tool)
  }

  lemma {:induction false} LimitedIsSmall(text: string, ordinal: nat, tool: string)
    requires FitsInt(ordinal) && |tool| <= MAX_TOOL_RUNES
    ensures Bytes(Limited(text, ordinal, tool)) <= MAX_OBSERVATION
  {
    UnavailableIsSmall(ordinal, tool);
  }

  method Observe(cleaned: ToolRun, redactor: Redactor) returns (prepared: ToolRun)
    requires |cleaned.tool| <= MAX_TOOL_RUNES
    ensures Observes(prepared, cleaned, redactor)
    ensures FitsInt(cleaned.ordinal) ==> Bytes(prepared.observation.value) <= MAX_OBSERVATION
    ensures prepared == cleaned.(observation := prepared.observation, arguments := prepared.arguments,
                                 modelClipped := prepared.modelClipped, content := NoContent)
  {
    var text, clipped := RenderObservation(cleaned, redactor);
    prepared := cleaned.(modelClipped := clipped);
    if Bytes(text) > MAX_OBSERVATION {
      prepared := prepared.(arguments := "{}", modelClipped := true);
    }
    prepared := prepared.(observation := Some(Limited(text, cleaned.ordinal, cleaned.tool)), content := NoContent);
    assert ObservedAs(prepared, cleaned, redactor, text);
    if FitsInt(cleaned.ordinal) { LimitedIsSmall(text, cleaned.ordinal, cleaned.tool); }
  }

  /** All that is left of a run: its redacted and cut texts, and an observation in place of its content. */
  ghost predicate PreparedFrom(prepared: ToolRun, run: ToolRun, redactor: Redactor) {
    var cleaned := Cleaned(run, redactor);
    && Prepared(prepared) && Observes(prepared, cleaned, redactor)
    && prepared == cleaned.(observation := prepared.observation, arguments := prepared.arguments,
                            modelClipped := prepared.modelClipped, content := NoContent)
  }

  /** Two contents that redact alike, whole and element by element. */
  predicate AlikeContent(a: Content, b: Content, redact: string -> string) {
    && a.NoContent? == b.NoContent? && WholeText(a).Some? == WholeText(b).Some?
    && (WholeText(a).Some? ==> redact(WholeText(a).value) == redact(WholeText(b).value))
    && a.Listed? == b.Listed?
    && (a.Listed? ==> AlikeElements(a.elements, b.elements, redact))
  }

  predicate AlikeElements(a: seq<Option<string>>, b: seq<Option<string>>, redact: string -> string) {
    && |a| == |b|
    && forall i :: 0 <= i < |a| ==>
         a[i].Some? == b[i].Some? && (a[i].Some? ==> redact(a[i].value) == redact(b[i].value))
  }

  lemma {:induction false} AlikeTexts(
      a: seq<Option<string>>, b: seq<Option<string>>, redact: string -> string, k: nat)
    requires AlikeElements(a, b, redact) && k <= |a|
    ensures Encodable(a, k) <==> Encodable(b, k)
    ensures Encodable(a, k) ==> Texts(a, k, redact) == Texts(b, k, redact)
  {
    assert Encodable(a, k) ==> forall i :: 0 <= i < k ==> b[i].Some? == a[i].Some?;
  }

  lemma {:induction false} AlikeLongest(
      a: seq<Option<string>>, b: seq<Option<string>>, redact: string -> string, k: nat, j: nat)
    requires AlikeElements(a, b, redact) && LongestFit(a, k, redact) && LongestFit(b, j, redact)
    ensures k == j && ListText(a, k, redact) == ListText(b, j, redact)
  {
    AlikeTexts(a, b, redact, k);
    AlikeTexts(a, b, redact, j);
    assert FitsList(b, k, redact) && FitsList(a, j, redact);
  }

  lemma {:induction false} ShownAlike(a: Content, b: Content, redact: string -> string, s: string, t: string)
    requires AlikeContent(a, b, redact) && Shown(a, redact, s) && Shown(b, redact, t)
    ensures s == t
  {
    if a.Listed? && WholeText(a).Some? && !FitsWhole(a, redact) {
      var k: nat :| LongestFit(a.elements, k, redact)
                    && (k > 0 ==> s == ListText(a.elements, k, redact))
                    && (k == 0 ==> s == CutText(redact(WholeText(a).value)));
      var j: nat :| LongestFit(b.elements, j, redact)
                    && (j > 0 ==> t == ListText(b.elements, j, redact))
                    && (j == 0 ==> t == CutText(redact(WholeText(b).value)));
      AlikeLongest(a.elements, b.elements, redact, k, j);
    }
  }

  /** Two runs that differ at most in what redaction takes out of them. */
  predicate AlikeRuns(a: ToolRun, b: ToolRun, redactor: Redactor) {
    && redactor.arguments(a.arguments) == redactor.arguments(b.arguments)
    && redactor.text(a.tool) == redactor.text(b.tool) && redactor.text(a.purpose) == redactor.text(b.purpose)
    && redactor.text(a.summary) == redactor.text(b.summary) && redactor.text(a.error) == redactor.text(b.error)
    && AlikeContent(a.content, b.content, redactor.text)
    && a.ordinal == b.ordinal && a.integration == b.integration && a.outcome == b.outcome
    && a.window == b.window && a.truncated == b.truncated
  }

  lemma {:induction false} RenderedAlike(a: ToolRun, b: ToolRun, redactor: Redactor, s: string, t: string)
    requires b == a.(content := b.content, observation := b.observation, modelClipped := b.modelClipped)
    requires AlikeContent(a.content, b.content, redactor.text)
    requires Rendering(a, redactor, s) && Rendering(b, redactor, t)
    ensures s == t
  {
    if a.outcome != RunFailed {
      var x :| Shown(a.content, redactor.text, x) && s == Unlines(Preface(a) + ["CONTENT: " + x]);
      var y :| Shown(b.content, redactor.text, y) && t == Unlines(Preface(b) + ["CONTENT: " + y]);
      ShownAlike(a.content, b.content, redactor.text, x, y);
      assert Preface(a) == Preface(b);
    }
  }

  lemma {:induction false} OneTextObservedAlike(
      a: ToolRun, b: ToolRun, redactor: Redactor, p: ToolRun, q: ToolRun, text: string)
    requires b.ordinal == a.ordinal && b.tool == a.tool && b.arguments == a.arguments && b.outcome == a.outcome
    requires AlikeContent(a.content, b.content, redactor.text)
    requires ObservedAs(p, a, redactor, text) && ObservedAs(q, b, redactor, text)
    ensures p.observation == q.observation && p.arguments == q.arguments && p.modelClipped == q.modelClipped
  {
    assert FitsWhole(a.content, redactor.text) == FitsWhole(b.content, redactor.text);
  }

  lemma {:induction false} ObservedAlike(a: ToolRun, b: ToolRun, redactor: Redactor, p: ToolRun, q: ToolRun)
    requires b == a.(content := b.content, observation := b.observation, modelClipped := b.modelClipped)
    requires AlikeContent(a.content, b.content, redactor.text)
    requires Observes(p, a, redactor) && Observes(q, b, redactor)
    ensures p.observation == q.observation && p.arguments == q.arguments && p.modelClipped == q.modelClipped
  {
    var s :| Rendering(a, redactor, s) && ObservedAs(p, a, redactor, s);
    var t :| Rendering(b, redactor, t) && ObservedAs(q, b, redactor, t);
    RenderedAlike(a, b, redactor, s, t);
    OneTextObservedAlike(a, b, redactor, p, q, s);
  }

  /** Nothing raw is left: runs that differ only in what redaction takes out are prepared to the same run. */
  lemma {:induction false} NothingRawIsLeft(a: ToolRun, b: ToolRun, redactor: Redactor, p: ToolRun, q: ToolRun)
    requires AlikeRuns(a, b, redactor) && PreparedFrom(p, a, redactor) && PreparedFrom(q, b, redactor)
    ensures p == q
  {
    ObservedAlike(Cleaned(a, redactor), Cleaned(b, redactor), redactor, p, q);
  }

  method PrepareObservation(run: ToolRun, redactor: Redactor) returns (prepared: ToolRun)
    ensures PreparedFrom(prepared, run, redactor)
    ensures Prepared(prepared) && Observes(prepared, Cleaned(run, redactor), redactor)
    ensures prepared.ordinal == run.ordinal && prepared.outcome == run.outcome
    ensures prepared.integration == run.integration
  {
    prepared := Observe(Cleaned(run, redactor), redactor);
  }
}
