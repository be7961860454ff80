/**
 * The voice-assistant endpoint (api/voice.ts). A POST carrying tool calls runs each call in order:
 *   - create_lead stores a lead;
 *   - bookAppointment answers a fixed stub;
 *   - dispatch_supplier answers a dispatch text.
 * The endpoint then returns one result entry per handled call. Any other POST gets the assistant
 * configuration. The leads collection is the field of `VoiceLine`. `JSON.parse` of a call's
 * arguments is the function `parse` (None: it throws). The outcome of the n-th call's store write
 * is `store(n)`, and the server timestamp is `now`.
 */
module Voice {
  import opened Wrappers
  import opened Json

  datatype Write = Stored(id: string) | Failed(message: Option<string>)

  /** What a handled call reports: a result text, or the error of a failed store (None: a runtime
      error whose message is not modelled). */
  datatype Outcome = Result(text: string) | Error(message: Option<string>)
  datatype Entry = Entry(toolCallId: Option<Json>, outcome: Outcome)

  datatype VoiceBody = Results(entries: seq<Entry>) | AssistantConfig | Plain(text: string) | Crashed
  datatype Response = Response(status: int, allow: Option<string>, body: VoiceBody)

  const BookingStub: string := "Appointment booked for tomorrow at 10 AM. (Stub)"
  const CreateLead: string := "create_lead"
  const BookAppointment: string := "bookAppointment"
  const DispatchSupplier: string := "dispatch_supplier"
  const NotAllowed: Response := Response(405, Some("POST"), Plain("Method Not Allowed"))
  /** An exception that escapes the handler: the platform answers 500. */
  const Unhandled: Response := Response(500, None, Crashed)

  predicate Handled(name: Json) {
    name == JStr(CreateLead) || name == JStr(BookAppointment) || name == JStr(DispatchSupplier)
  }

  /** `toolCall.function.name`, None when reading it throws. */
  function NameOf(call: Json): Option<Json> {
    var f := Member(Some(call), "function");
    if f.Throws? then None
    else
      var n := Member(f.Value(), "name");
      if n.Throws? then None else Some(if n.Present? then n.value else JNull)
  }

  function ArgumentsOf(call: Json): Option<Json> {
    Member(Member(Some(call), "function").Value(), "arguments").Value()
  }

  /** The lead stored for `create_lead`: the arguments' own fields, the source, the time and the
      status, which is HOT exactly when the urgency is "High". None when reading `args.urgency` throws. */
  function LeadRecord(args: Json, now: Json): (r: Option<map<string, Json>>)
    ensures r.None? <==> args == JNull
    ensures r.Some? ==> "source" in r.value && r.value["source"] == JStr("voice_agent")
    ensures r.Some? ==> "status" in r.value && (r.value["status"] == JStr("HOT") <==> Member(Some(args), "urgency").Value() == Some(JStr("High")))
    ensures r.Some? ==> r.value["status"] in {JStr("HOT"), JStr("NEW")}
    ensures r.Some? ==> forall k :: k in SpreadFields(args) && k !in {"source", "createdAt", "status"} ==> k in r.value && r.value[k] == SpreadFields(args)[k]
  {
    var urgency := Member(Some(args), "urgency");
    if urgency.Throws? then None
    else Some(SpreadFields(args)["source" := JStr("voice_agent")]["createdAt" := now]
                                ["status" := JStr(if urgency.Value() == Some(JStr("High")) then "HOT" else "NEW")])
  }

  predicate AgentLead(lead: map<string, Json>) {
    "source" in lead && lead["source"] == JStr("voice_agent") && "status" in lead && lead["status"] in {JStr("HOT"), JStr("NEW")}
  }

  predicate AgentLeads(leads: seq<map<string, Json>>) {
    forall k :: 0 <= k < |leads| ==> AgentLead(leads[k])
  }

  /** One pass of the loop: crashed (None), or the entry it pushes and the lead it stores. */
  datatype Step = Step(entry: Option<Entry>, lead: Option<map<string, Json>>)

  function RunCall(call: Json, index: nat, parse: Option<Json> -> Option<Json>, store: nat -> Write, now: Json,
                   numText: real -> string): (r: Option<Step>)
    ensures r.Some? ==> NameOf(call).Some? && (r.value.entry.Some? <==> Handled(NameOf(call).value))
    ensures r.Some? && r.value.entry.Some? ==> r.value.entry.value.toolCallId == Member(Some(call), "id").Value()
    ensures r.Some? && r.value.lead.Some? ==> AgentLead(r.value.lead.value)
    ensures r.Some? && r.value.lead.Some? ==> NameOf(call) == Some(JStr(CreateLead))
  {
    match NameOf(call)
    case None => None
    case Some(name) =>
      var id := Member(Some(call), "id").Value();
      if !Handled(name) then Some(Step(None, None))
      else match parse(ArgumentsOf(call))
        case None => None
        case Some(args) =>
          if name == JStr(CreateLead) then
            match LeadRecord(args, now)
            case None => Some(Step(Some(Entry(id, Error(None))), None))
            case Some(lead) =>
              (match store(index)
               case Failed(m) => Some(Step(Some(Entry(id, Error(m))), None))
               case Stored(leadId) => Some(Step(Some(Entry(id, Result("Lead created with ID: " + leadId))), Some(lead))))
          else if name == JStr(BookAppointment) then Some(Step(Some(Entry(id, Result(BookingStub))), None))
          else
            var supplier := Member(Some(args), "supplierName");
            if supplier.Throws? then None
            else Some(Step(Some(Entry(id, Result("Supplier " + TemplateText(supplier.Value(), numText) + " dispatched for availability check on "
                                                 + TemplateText(Member(Some(args), "materialList").Value(), numText) + "."))), None))
  }

  /** A create_lead call whose arguments parse never stops the loop: a failed store is reported as an
      error entry, and a lead is stored exactly when the entry is a result. */
  lemma CreateLeadContinues(call: Json, index: nat, parse: Option<Json> -> Option<Json>, store: nat -> Write, now: Json,
                            numText: real -> string)
    requires NameOf(call) == Some(JStr(CreateLead)) && parse(ArgumentsOf(call)).Some?
    ensures var r := RunCall(call, index, parse, store, now, numText);
      r.Some? && r.value.entry.Some? && (r.value.lead.Some? <==> r.value.entry.value.outcome.Result?)
  {
  }

  /** A bookAppointment call whose arguments parse always answers the fixed stub and stores nothing. */
  lemma BookingAnswersStub(call: Json, index: nat, parse: Option<Json> -> Option<Json>, store: nat -> Write, now: Json,
                           numText: real -> string)
    requires NameOf(call) == Some(JStr(BookAppointment)) && parse(ArgumentsOf(call)).Some?
    ensures var r := RunCall(call, index, parse, store, now, numText);
      r.Some? && r.value.lead.None? && r.value.entry == Some(Entry(Member(Some(call), "id").Value(), Result(BookingStub)))
  {
  }

  /** A dispatch_supplier call whose arguments name a supplier and a material list answers with both. */
  lemma DispatchEmbedsArguments(call: Json, index: nat, parse: Option<Json> -> Option<Json>, store: nat -> Write, now: Json,
                                numText: real -> string, supplier: string, materials: string)
    requires NameOf(call) == Some(JStr(DispatchSupplier))
    requires var a := parse(ArgumentsOf(call));
      a.Some? && a.value.JObj? && "supplierName" in a.value.fields && a.value.fields["supplierName"] == JStr(supplier)
      && "materialList" in a.value.fields && a.value.fields["materialList"] == JStr(materials)
    ensures var r := RunCall(call, index, parse, store, now, numText);
      r.Some? && r.value.lead.None? && r.value.entry.Some?
      && r.value.entry.value.outcome == Result("Supplier " + supplier + " dispatched for availability check on " + materials + ".")
  {
  }

  /** The loop over the first calls: the entries pushed, the leads stored and whether a call threw
      (the loop stops there; what was stored stays stored). */
  datatype Progress = Progress(entries: seq<Entry>, leads: seq<map<string, Json>>, crashed: bool)

  function Run(calls: seq<Json>, parse: Option<Json> -> Option<Json>, store: nat -> Write, now: Json,
               numText: real -> string): (p: Progress)
    ensures |p.entries| <= |calls| && |p.leads| <= |p.entries|
  {
    if calls == [] then Progress([], [], false)
    else
      var n := |calls| - 1;
      var before := Run(calls[..n], parse, store, now, numText);
      if before.crashed then before
      else match RunCall(calls[n], n, parse, store, now, numText)
        case None => Progress(before.entries, before.leads, true)
        case Some(step) =>
          Progress(before.entries + (if step.entry.Some? then [step.entry.value] else []),
                   before.leads + (if step.lead.Some? then [step.lead.value] else []), false)
  }

  /** The calls whose tool name the loop handles, in order. */
  function HandledCalls(calls: seq<Json>): seq<Json> {
    if calls == [] then []
    else
      var n := |calls| - 1;
      HandledCalls(calls[..n]) + (if NameOf(calls[n]).Some? && Handled(NameOf(calls[n]).value) then [calls[n]] else [])
  }

  /** When no call throws, there is exactly one entry per handled call, in call order, carrying that
      call's id. */
  lemma {:induction false} OneEntryPerHandledCall(calls: seq<Json>, parse: Option<Json> -> Option<Json>, store: nat -> Write,
                                                  now: Json, numText: real -> string)
    requires !Run(calls, parse, store, now, numText).crashed
    ensures var p := Run(calls, parse, store, now, numText);
      |p.entries| == |HandledCalls(calls)|
      && forall k :: 0 <= k < |p.entries| ==> p.entries[k].toolCallId == Member(Some(HandledCalls(calls)[k]), "id").Value()
  {
    if calls != [] {
      var n := |calls| - 1;
      var before := Run(calls[..n], parse, store, now, numText);
      assert !before.crashed;
      OneEntryPerHandledCall(calls[..n], parse, store, now, numText);
      var step := RunCall(calls[n], n, parse, store, now, numText);
      assert step.Some?;
      var hs := HandledCalls(calls[..n]);
      if step.value.entry.Some? {
        var es := before.entries + [step.value.entry.value];
        assert HandledCalls(calls) == hs + [calls[n]];
        forall k | 0 <= k < |es| ensures es[k].toolCallId == Member(Some((hs + [calls[n]])[k]), "id").Value() {
          if k < |before.entries| {
            assert es[k] == before.entries[k] && (hs + [calls[n]])[k] == hs[k];
          }
        }
      } else {
        assert HandledCalls(calls) == hs;
        assert Run(calls, parse, store, now, numText).entries == before.entries;
      }
    }
  }

  /** Every stored lead comes from the voice agent and is HOT or NEW. */
  lemma {:induction false} LeadsFromAgent(calls: seq<Json>, parse: Option<Json> -> Option<Json>, store: nat -> Write,
                                          now: Json, numText: real -> string)
    ensures AgentLeads(Run(calls, parse, store, now, numText).leads)
  {
    if calls != [] {
      var n := |calls| - 1;
      LeadsFromAgent(calls[..n], parse, store, now, numText);
      var before := Run(calls[..n], parse, store, now, numText);
      if !before.crashed {
        var step := RunCall(calls[n], n, parse, store, now, numText);
        if step.Some? && step.value.lead.Some? {
          var after := before.leads + [step.value.lead.value];
          forall k | 0 <= k < |after| ensures AgentLead(after[k]) {
            if k < |before.leads| {
              assert after[k] == before.leads[k];
              assert AgentLead(before.leads[k]);
            } else {
              assert after[k] == step.value.lead.value;
              assert AgentLead(step.value.lead.value);
            }
          }
          assert Run(calls, parse, store, now, numText).leads == after;
        } else if step.Some? {
          assert Run(calls, parse, store, now, numText).leads == before.leads;
        }
      }
    }
  }

  /** `for (const toolCall of body.message.toolCalls)`: an array's elements, a string's characters;
      None when the value is not iterable. */
  function Calls(v: Option<Json>): Option<seq<Json>> {
    match v
    case Some(JArr(es)) => Some(es)
    case Some(JStr(s)) => Some(seq(|s|, i requires 0 <= i < |s| => JStr([s[i]])))
    case _ => None
  }

  class VoiceLine {
    var leads: seq<map<string, Json>>

    constructor (leads0: seq<map<string, Json>>)
      ensures leads == leads0
    {
      leads := leads0;
    }

    /** `handler`. */
    method Handle(httpMethod: string, body: Option<Json>, parse: Option<Json> -> Option<Json>, store: nat -> Write,
                  now: Json, numText: real -> string) returns (resp: Response)
      modifies this
      ensures httpMethod != "POST" ==> resp == NotAllowed && leads == old(leads)
      ensures httpMethod == "POST" && Member(body, "message").Throws? ==> resp == Unhandled && leads == old(leads)
      ensures httpMethod == "POST" && !Member(body, "message").Throws?
              && Get(Member(body, "message").Value(), "type") != Some(JStr("tool-calls")) ==>
                resp == Response(200, None, AssistantConfig) && leads == old(leads)
      ensures httpMethod == "POST" && !Member(body, "message").Throws?
              && Get(Member(body, "message").Value(), "type") == Some(JStr("tool-calls")) ==>
                var calls := Calls(Get(Member(body, "message").Value(), "toolCalls"));
                (calls.None? ==> resp == Unhandled && leads == old(leads))
                && (calls.Some? ==>
                      var p := Run(calls.value, parse, store, now, numText);
                      leads == old(leads) + p.leads
                      && resp == (if p.crashed then Unhandled else Response(200, None, Results(p.entries))))
    {
      if httpMethod != "POST" {
        return NotAllowed;
      }
      var message := Member(body, "message");
      if message.Throws? {
        return Unhandled;
      }
      if Get(message.Value(), "type") != Some(JStr("tool-calls")) {
        return Response(200, None, AssistantConfig);
      }
      var calls := Calls(Get(message.Value(), "toolCalls"));
      if calls.None? {
        return Unhandled;
      }
      resp := Dispatch(calls.value, parse, store, now, numText);
    }

    /** The loop over the tool calls: one entry per handled call, leads stored as they come; a call
        that throws ends the request, keeping what was stored. */
    method Dispatch(cs: seq<Json>, parse: Option<Json> -> Option<Json>, store: nat -> Write, now: Json,
                    numText: real -> string) returns (resp: Response)
      modifies this
      ensures var p := Run(cs, parse, store, now, numText);
        leads == old(leads) + p.leads && resp == (if p.crashed then Unhandled else Response(200, None, Results(p.entries)))
    {
      var results: seq<Entry> := [];
      var i := 0;
      while i < |cs|
        invariant 0 <= i <= |cs|
        invariant !Run(cs[..i], parse, store, now, numText).crashed
        invariant results == Run(cs[..i], parse, store, now, numText).entries
        invariant leads == old(leads) + Run(cs[..i], parse, store, now, numText).leads
      {
        assert cs[..i + 1][..i] == cs[..i];
        var step := RunCall(cs[i], i, parse, store, now, numText);
        if step.None? {
          assert Run(cs[..i + 1], parse, store, now, numText).crashed;
          CrashStays(cs, i + 1, parse, store, now, numText);
          return Unhandled;
        }
        if step.value.entry.Some? {
          results := results + [step.value.entry.value];
        }
        if step.value.lead.Some? {
          leads := leads + [step.value.lead.value];
        }
        i := i + 1;
      }
      assert cs[..|cs|] == cs;
      resp := Response(200, None, Results(results));
    }
  }

  /** Once a call throws, the run over any longer prefix has thrown too, with the same writes. */
  lemma {:induction false} CrashStays(cs: seq<Json>, i: nat, parse: Option<Json> -> Option<Json>, store: nat -> Write,
                                      now: Json, numText: real -> string)
    requires i <= |cs| && Run(cs[..i], parse, store, now, numText).crashed
    ensures Run(cs, parse, store, now, numText) == Run(cs[..i], parse, store, now, numText)
    decreases |cs| - i
  {
    if i < |cs| {
      assert cs[..i + 1][..i] == cs[..i];
      CrashStays(cs, i + 1, parse, store, now, numText);
    } else {
      assert cs[..i] == cs;
    }
  }
}
