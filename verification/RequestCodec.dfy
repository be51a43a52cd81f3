/** How a chat request is taken apart and put together again. The gateway reads the few fields it knows
and keeps all others, so that a request in raw mode passes through unchanged but for the model. */
module RequestCodec {
  import opened Options

  datatype Json =
    | Null
    | Bool(value: bool)
    | Num(number: real)
    | Str(text: string)
    | Arr(elems: seq<Json>)
    | Obj(fields: Fields)
  type Fields = map<string, Json>

  // A nil Extra map is None; a nil Content is Null.
  datatype Message = Message(role: string, content: Json, extra: Fields)
  datatype ExtraBody = ExtraBody(promptMode: string, mode: string, extra: Fields)
  datatype Params = Params(priority: Option<int>, extraBody: ExtraBody, messages: Option<seq<Message>>, extra: Fields)

  const ZERO_MESSAGE := Message("", Null, map[])
  const ZERO_BODY := ExtraBody("", "", map[])

  // What unmarshalling into a map yields; None is an error.
  function AsMap(j: Json): Option<Fields> {
    match j
    case Obj(fields) => Some(fields)
    case Null => Some(map[])
    case _ => None
  }

  predicate HasText(f: Fields, key: string) {
    key in f && f[key].Str?
  }

  function TextAt(f: Fields, key: string): string {
    if HasText(f, key) then f[key].text else ""
  }

  function WithoutText(f: Fields, key: string): Fields {
    if HasText(f, key) then f - {key} else f
  }

  // Going to an integer cuts off the fraction.
  function Truncate(x: real): int {
    if x >= 0.0 then x.Floor else -(-x).Floor
  }

  // ---------- Messages ----------

  function ParseMessage(j: Json): Option<Message> {
    match AsMap(j)
    case None => None
    case Some(raw) =>
      Some(Message(TextAt(raw, "role"),
                   if "content" in raw then raw["content"] else Null,
                   WithoutText(raw, "role") - {"content"}))
  }

  function MessageJson(m: Message): Json {
    Obj(map["role" := Str(m.role), "content" := m.content] + m.extra)
  }

  // The first element that is no message ends the list, with an empty message in its place.
  function ParseMessages(elems: seq<Json>): seq<Message> {
    if elems == [] then []
    else
      match ParseMessage(elems[0])
      case None => [ZERO_MESSAGE]
      case Some(m) => [m] + ParseMessages(elems[1..])
  }

  function MessagesJson(messages: seq<Message>): (r: seq<Json>)
    ensures |r| == |messages| && forall i :: 0 <= i < |r| ==> r[i] == MessageJson(messages[i])
  {
    if messages == [] then []
    else MessagesJson(messages[..|messages| - 1]) + [MessageJson(messages[|messages| - 1])]
  }

  // ---------- The extra body ----------

  function ParseExtraBody(j: Json): ExtraBody {
    match AsMap(j)
    case None => ZERO_BODY
    case Some(raw) =>
      ExtraBody(TextAt(raw, "prompt_mode"), TextAt(raw, "mode"), WithoutText(WithoutText(raw, "prompt_mode"), "mode"))
  }

  function ExtraBodyJson(e: ExtraBody): Json {
    Obj((if e.promptMode != "" then map["prompt_mode" := Str(e.promptMode)] else map[])
        + (if e.mode != "" then map["mode" := Str(e.mode)] else map[]) + e.extra)
  }

  // ---------- Parameters ----------

  function ParseParams(raw: Fields): Params {
    Params(
      if "priority" in raw && raw["priority"].Num? then Some(Truncate(raw["priority"].number)) else None,
      if "extra_body" in raw then ParseExtraBody(raw["extra_body"]) else ZERO_BODY,
      if "messages" in raw && raw["messages"].Arr? then Some(ParseMessages(raw["messages"].elems)) else None,
      raw - {"priority", "extra_body", "messages"})
  }

  function PriorityPart(p: Params): Fields {
    if p.priority.Some? then map["priority" := Num(p.priority.value as real)] else map[]
  }

  function ExtraBodyPart(e: ExtraBody): Fields {
    if e != ZERO_BODY then map["extra_body" := ExtraBodyJson(e)] else map[]
  }

  function MessagesPart(p: Params): Fields {
    if p.messages.Some? then map["messages" := Arr(MessagesJson(p.messages.value))] else map[]
  }

  function ParamsJson(p: Params): Json {
    Obj(PriorityPart(p) + ExtraBodyPart(p.extraBody) + MessagesPart(p) + p.extra)
  }

  function ParseRequest(raw: Fields): Params {
    ParseParams(WithoutText(raw, "model"))
  }

  // What goes upstream: the parameters, with the model among the passed-on fields.
  function Send(p: Params, model: string): Json {
    ParamsJson(p.(extra := p.extra["model" := Str(model)]))
  }

  // ---------- The methods as they run ----------

  // Copying all passed-on fields over the result.
  method Merge(into: Fields, extra: Fields) returns (r: Fields)
    ensures r == into + extra
  {
    r := into;
    var todo := extra.Keys;
    while todo != {}
      invariant todo <= extra.Keys
      invariant r.Keys == into.Keys + (extra.Keys - todo)
      invariant forall k :: k in r ==> r[k] == if k in extra && k !in todo then extra[k] else into[k]
    {
      var k :| k in todo;
      r := r[k := extra[k]];
      todo := todo - {k};
    }
  }

  method UnmarshalMessage(data: Json) returns (m: Option<Message>)
    ensures m == ParseMessage(data)
  {
    var parsed := AsMap(data);
    if parsed.None? {
      return None;
    }
    var raw := parsed.value;
    var role, content := "", Null;
    if HasText(raw, "role") {
      role := raw["role"].text;
      raw := raw - {"role"};
    }
    if "content" in raw {
      content := raw["content"];
      raw := raw - {"content"};
    }
    assert "content" !in raw && raw - {"content"} == raw;
    return Some(Message(role, content, raw));
  }

  method MarshalMessage(m: Message) returns (r: Json)
    ensures r == MessageJson(m)
  {
    var result := map["role" := Str(m.role), "content" := m.content];
    result := Merge(result, m.extra);
    return Obj(result);
  }

  method UnmarshalMessages(elems: seq<Json>) returns (messages: seq<Message>)
    ensures messages == ParseMessages(elems)
  {
    messages := [];
    for i := 0 to |elems|
      invariant ParseMessages(elems) == messages + ParseMessages(elems[i..])
    {
      var m := UnmarshalMessage(elems[i]);
      assert elems[i..][0] == elems[i] && elems[i..][1..] == elems[i + 1..];
      if m.None? {
        return messages + [ZERO_MESSAGE];
      }
      messages := messages + [m.value];
    }
  }

  method MarshalMessages(messages: seq<Message>) returns (list: seq<Json>)
    ensures list == MessagesJson(messages)
  {
    list := [];
    for i := 0 to |messages|
      invariant list == MessagesJson(messages)[..i]
    {
      var m := MarshalMessage(messages[i]);
      list := list + [m];
    }
  }

  method UnmarshalExtraBody(data: Json) returns (e: ExtraBody)
    ensures e == ParseExtraBody(data)
  {
    e := ZERO_BODY;
    var parsed := AsMap(data);
    if parsed.None? {
      return;
    }
    var raw := parsed.value;
    if HasText(raw, "prompt_mode") {
      e := e.(promptMode := raw["prompt_mode"].text);
      raw := raw - {"prompt_mode"};
    }
    if HasText(raw, "mode") {
      e := e.(mode := raw["mode"].text);
      raw := raw - {"mode"};
    }
    if raw != map[] {
      e := e.(extra := raw);
    }
  }

  method MarshalExtraBody(e: ExtraBody) returns (r: Json)
    ensures r == ExtraBodyJson(e)
  {
    var result: Fields := map[];
    if e.promptMode != "" {
      result := result["prompt_mode" := Str(e.promptMode)];
    }
    if e.mode != "" {
      result := result["mode" := Str(e.mode)];
    }
    result := Merge(result, e.extra);
    return Obj(result);
  }

  method PutExtraBody(into: Fields, e: ExtraBody) returns (r: Fields)
    ensures r == into + ExtraBodyPart(e)
  {
    r := into;
    if e.promptMode != "" || e.mode != "" || |e.extra| > 0 {
      var body := MarshalExtraBody(e);
      r := r["extra_body" := body];
    }
  }

  // Setting a field is taking the union with it.
  function Put(into: Fields, key: string, value: Json): (r: Fields)
    ensures r == into + map[key := value]
  {
    into[key := value]
  }

  /** A request while the gateway holds it. */
  class ChatCompletionRequest {
    var model: string
    var priority: Option<int>
    var extraBody: ExtraBody
    var messages: Option<seq<Message>>
    var extra: Option<Fields>

    function State(): Params
      reads this
    {
      Params(priority, extraBody, messages, if extra.Some? then extra.value else map[])
    }

    constructor ()
      ensures State() == Params(None, ZERO_BODY, None, map[]) && model == "" && extra == None
    {
      model, priority, extraBody, messages, extra := "", None, ZERO_BODY, None, None;
    }

    // Reading a body into a fresh request.
    method UnmarshalJSON(body: Json) returns (ok: bool)
      requires State() == Params(None, ZERO_BODY, None, map[]) && model == "" && extra == None
      modifies this
      ensures ok == (body.Obj? || body.Null?)
      ensures ok ==> var raw := AsMap(body).value; State() == ParseRequest(raw) && model == TextAt(raw, "model")
    {
      var parsed := AsMap(body);
      if parsed.None? {
        return false;
      }
      var raw := parsed.value;
      if HasText(raw, "model") {
        model := raw["model"].text;
        raw := raw - {"model"};
      }
      UnmarshalParams(raw);
      return true;
    }

    method UnmarshalParams(data: Fields)
      requires State() == Params(None, ZERO_BODY, None, map[]) && extra == None
      modifies this`priority, this`extraBody, this`messages, this`extra
      ensures State() == ParseParams(data)
    {
      var raw := data;
      if "priority" in raw {
        if raw["priority"].Num? {
          priority := Some(Truncate(raw["priority"].number));
        }
        raw := raw - {"priority"};
      }
      if "extra_body" in raw {
        extraBody := UnmarshalExtraBody(raw["extra_body"]);
        raw := raw - {"extra_body"};
      }
      if "messages" in raw {
        if raw["messages"].Arr? {
          var list := UnmarshalMessages(raw["messages"].elems);
          messages := Some(list);
        }
        raw := raw - {"messages"};
      }
      assert raw == data - {"priority", "extra_body", "messages"};
      if raw != map[] {
        extra := Some(raw);
      }
    }

    method MarshalJSON(extra: Fields) returns (r: Json)
      ensures r == ParamsJson(State().(extra := extra))
    {
      ghost var p := State().(extra := extra);
      var result: Fields := map[];
      if priority.Some? {
        result := map["priority" := Num(priority.value as real)];
      }
      assert result == PriorityPart(p);
      result := PutExtraBody(result, extraBody);
      if messages.Some? {
        var list := MarshalMessages(messages.value);
        result := Put(result, "messages", Arr(list));
      }
      assert result == PriorityPart(p) + ExtraBodyPart(p.extraBody) + MessagesPart(p);
      result := Merge(result, extra);
      return Obj(result);
    }

    // Raw-mode processing: messages stay as they are, empty user messages are refused.
    method ProcessRequest(vip: bool) returns (ok: bool)
      modifies this`priority
      ensures State() == Prioritised(old(State()), vip) && ok == !HasEmptyUser(State())
    {
      if vip {
        priority := Some(VIP_PRIORITY);
      }
      if messages.Some? {
        for i := 0 to |messages.value|
          invariant forall m :: m in messages.value[..i] ==> !IsEmptyUser(m)
        {
          if messages.value[i].role == "user" && IsEmptyContent(messages.value[i].content) {
            assert IsEmptyUser(messages.value[i]) && messages.value[i] in messages.value;
            return false;
          }
        }
      }
      return true;
    }

    method ResolveEffectivePromptMode() returns (mode: string)
      ensures mode == EffectiveMode(State())
    {
      mode := extraBody.promptMode;
      if mode == "" {
        var marked := extra.Some? && TrueAt(extra.value, "continue_final_message");
        if !marked && messages.Some? && |messages.value| > 0 {
          var last := messages.value[|messages.value| - 1];
          if last.role == "assistant" {
            marked := TrueAt(last.extra, "partial") || TrueAt(last.extra, "prefix");
          }
        }
        if marked {
          mode := "raw";
        }
      }
    }

    // One upstream call: the parameters are passed by value, but a map of passed-on fields is shared.
    method ChatLLM(modelName: string) returns (sent: Json)
      modifies this`extra
      ensures sent == Send(old(State()), modelName)
      ensures State() == if old(extra).None? then old(State())
                         else old(State()).(extra := old(State()).extra["model" := Str(modelName)])
    {
      var shared := if extra.Some? then extra.value else map[];
      shared := shared["model" := Str(modelName)];
      if extra.Some? {
        extra := Some(shared);
      }
      sent := MarshalJSON(shared);
    }
  }

  /** A raw-mode request from the client's body to the upstream body. */
  method ForwardRaw(raw: Fields, vip: bool, modelName: string) returns (sent: Option<Json>)
    ensures sent == Forwarded(raw, vip, modelName)
  {
    var request := new ChatCompletionRequest();
    var parsed := request.UnmarshalJSON(Obj(raw));
    var ok := request.ProcessRequest(vip);
    if !ok {
      return None;
    }
    var json := request.ChatLLM(modelName);
    return Some(json);
  }

  // ---------- What passes through unchanged ----------

  predicate Integral(x: real) {
    x == x.Floor as real
  }

  predicate GoodPriority(raw: Fields) {
    "priority" in raw ==> raw["priority"].Num? && Integral(raw["priority"].number)
  }

  predicate GoodExtraBody(j: Json) {
    j.Obj? && j.fields != map[]
    && ("prompt_mode" in j.fields ==> j.fields["prompt_mode"] != Str(""))
    && ("mode" in j.fields ==> j.fields["mode"] != Str(""))
  }

  predicate GoodMessage(j: Json) {
    j.Obj? && "role" in j.fields && "content" in j.fields
  }

  predicate GoodMessages(j: Json) {
    j.Arr? && forall e :: e in j.elems ==> GoodMessage(e)
  }

  ghost predicate WellFormed(raw: Fields) {
    && GoodPriority(raw)
    && ("extra_body" in raw ==> GoodExtraBody(raw["extra_body"]))
    && ("messages" in raw ==> GoodMessages(raw["messages"]))
  }

  predicate Agree(f: Fields, g: Fields, key: string) {
    (key in f <==> key in g) && (key in f ==> f[key] == g[key])
  }

  lemma TruncateExactly(x: real)
    ensures Truncate(x) as real == x <==> Integral(x)
    ensures Integral(Truncate(x) as real)
    ensures if x >= 0.0 then x - 1.0 < Truncate(x) as real <= x else x <= Truncate(x) as real < x + 1.0
  {
  }

  /** An object comes back as it was exactly when it has a role and a content. */
  lemma MessageRoundTrip(j: Json)
    requires j.Obj?
    ensures MessageJson(ParseMessage(j).value) == j <==> GoodMessage(j)
  {
  }

  lemma {:induction false} ListRoundTrip(elems: seq<Json>)
    ensures MessagesJson(ParseMessages(elems)) == elems <==> GoodMessages(Arr(elems))
  {
    if elems != [] {
      var all := ParseMessages(elems);
      match ParseMessage(elems[0])
      case None => NotAMessage(elems);
      case Some(m) =>
        assert all == [m] + ParseMessages(elems[1..]);
        ListRoundTrip(elems[1..]);
        HeadAndTail(m, ParseMessages(elems[1..]));
        GoodHeadAndTail(elems);
        assert elems == [elems[0]] + elems[1..];
        if elems[0].Obj? {
          MessageRoundTrip(elems[0]);
        } else {
          assert MessageJson(m) != elems[0];
        }
    }
  }

  lemma NotAMessage(elems: seq<Json>)
    requires elems != [] && ParseMessage(elems[0]).None?
    ensures MessagesJson(ParseMessages(elems)) != elems && !GoodMessages(Arr(elems))
  {
    assert elems[0] in elems && !elems[0].Obj?;
    assert MessagesJson([ZERO_MESSAGE])[0].Obj?;
  }

  lemma HeadAndTail(m: Message, rest: seq<Message>)
    ensures MessagesJson([m] + rest) == [MessageJson(m)] + MessagesJson(rest)
  {
  }

  lemma GoodHeadAndTail(elems: seq<Json>)
    requires elems != []
    ensures GoodMessages(Arr(elems)) <==> GoodMessage(elems[0]) && GoodMessages(Arr(elems[1..]))
  {
  }

  /** What an extra body becomes: itself when well formed, and otherwise something else or nothing. */
  lemma ExtraBodyRoundTrip(j: Json)
    ensures ParseExtraBody(j) != ZERO_BODY && ExtraBodyJson(ParseExtraBody(j)) == j <==> GoodExtraBody(j)
  {
  }

  // ---------- Raw mode from end to end ----------

  const VIP_PRIORITY := 10

  function Prioritised(p: Params, vip: bool): Params {
    if vip then p.(priority := Some(VIP_PRIORITY)) else p
  }

  predicate IsEmptyContent(content: Json) {
    content == Null || content == Str("") || content == Arr([])
  }

  predicate IsEmptyUser(m: Message) {
    m.role == "user" && IsEmptyContent(m.content)
  }

  predicate HasEmptyUser(p: Params) {
    p.messages.Some? && exists m :: m in p.messages.value && IsEmptyUser(m)
  }

  predicate TrueAt(f: Fields, key: string) {
    key in f && f[key] == Bool(true)
  }

  predicate HasContinuationMarker(p: Params) {
    TrueAt(p.extra, "continue_final_message")
    || (p.messages.Some? && p.messages.value != []
        && var last := p.messages.value[|p.messages.value| - 1];
           last.role == "assistant" && (TrueAt(last.extra, "partial") || TrueAt(last.extra, "prefix")))
  }

  function EffectiveMode(p: Params): string {
    if p.extraBody.promptMode == "" && HasContinuationMarker(p) then "raw" else p.extraBody.promptMode
  }

  // An element of the message list that can be read as a message; the first other one ends the list.
  predicate Readable(j: Json) {
    j.Obj? || j.Null?
  }

  predicate AllReadable(elems: seq<Json>) {
    forall e :: e in elems ==> Readable(e)
  }

  // What the body asks for, read off the body itself.
  ghost predicate AsksForRaw(raw: Fields) {
    || NamesMode(raw, "raw")
    || ((forall mode: string :: NamesMode(raw, mode) ==> mode == "")
        && (Says(raw, "continue_final_message", Bool(true)) || EndsInPrefill(raw)))
  }

  predicate Says(f: Fields, key: string, value: Json) {
    key in f && f[key] == value
  }

  predicate NamesMode(raw: Fields, mode: string) {
    "extra_body" in raw && raw["extra_body"].Obj? && Says(raw["extra_body"].fields, "prompt_mode", Str(mode))
  }

  predicate EndsInPrefill(raw: Fields) {
    "messages" in raw && raw["messages"].Arr? && raw["messages"].elems != [] && AllReadable(raw["messages"].elems)
    && var last := raw["messages"].elems[|raw["messages"].elems| - 1];
       last.Obj? && Says(last.fields, "role", Str("assistant"))
       && (Says(last.fields, "partial", Bool(true)) || Says(last.fields, "prefix", Bool(true)))
  }

  // A user message without content, or with an empty one.
  predicate EmptyUserJson(j: Json) {
    j.Obj? && Says(j.fields, "role", Str("user"))
    && ("content" in j.fields ==> j.fields["content"] in {Null, Str(""), Arr([])})
  }

  ghost predicate AsksNothing(raw: Fields) {
    "messages" in raw && raw["messages"].Arr?
    && exists i :: 0 <= i < |raw["messages"].elems| && AllReadable(raw["messages"].elems[..i])
                   && EmptyUserJson(raw["messages"].elems[i])
  }

  // The body that should go upstream.
  function Replaced(raw: Fields, model: string, vip: bool): Fields {
    var f := raw["model" := Str(model)];
    if vip then f["priority" := Num(VIP_PRIORITY as real)] else f
  }

  // What a raw-mode request sends to the model, if it is not turned away.
  function Forwarded(raw: Fields, vip: bool, model: string): Option<Json> {
    var p := Prioritised(ParseRequest(raw), vip);
    if HasEmptyUser(p) then None else Some(Send(p, model))
  }

  // Fields that the gateway does not read go upstream as they came.
  lemma OtherFields(raw: Fields, vip: bool, model: string)
    ensures var r := Send(Prioritised(ParseRequest(raw), vip), model).fields;
            forall k :: k !in {"priority", "extra_body", "messages", "model"} ==> Agree(r, raw, k)
  {
    assert raw.Keys - {"model"} <= WithoutText(raw, "model").Keys <= raw.Keys;
  }

  // The fields that it reads, one by one.
  lemma SentFields(raw: Fields, vip: bool, model: string)
    ensures var p := Prioritised(ParseRequest(raw), vip);
            var r := Send(p, model).fields;
            && "model" in r && r["model"] == Str(model)
            && ("priority" in r <==> p.priority.Some?)
            && (p.priority.Some? ==> r["priority"] == Num(p.priority.value as real))
            && ("extra_body" in r <==> p.extraBody != ZERO_BODY)
            && (p.extraBody != ZERO_BODY ==> r["extra_body"] == ExtraBodyJson(p.extraBody))
            && ("messages" in r <==> p.messages.Some?)
            && (p.messages.Some? ==> r["messages"] == Arr(MessagesJson(p.messages.value)))
  {
  }

  lemma PriorityAgrees(raw: Fields, model: string)
    ensures Agree(Send(ParseRequest(raw), model).fields, raw, "priority") <==> GoodPriority(raw)
  {
    SentFields(raw, false, model);
    if "priority" in raw && raw["priority"].Num? {
      TruncateExactly(raw["priority"].number);
    }
  }

  lemma ExtraBodyAgrees(raw: Fields, vip: bool, model: string)
    ensures Agree(Send(Prioritised(ParseRequest(raw), vip), model).fields, raw, "extra_body")
            <==> ("extra_body" in raw ==> GoodExtraBody(raw["extra_body"]))
  {
    SentFields(raw, vip, model);
    if "extra_body" in raw {
      ExtraBodyRoundTrip(raw["extra_body"]);
    }
  }

  lemma MessagesAgree(raw: Fields, vip: bool, model: string)
    ensures Agree(Send(Prioritised(ParseRequest(raw), vip), model).fields, raw, "messages")
            <==> ("messages" in raw ==> GoodMessages(raw["messages"]))
  {
    SentFields(raw, vip, model);
    if "messages" in raw && raw["messages"].Arr? {
      ListRoundTrip(raw["messages"].elems);
    }
  }

  // Two objects that agree elsewhere are equal exactly when they agree on the fields the gateway reads.
  lemma SameFields(f: Fields, g: Fields)
    requires forall k :: k !in {"priority", "extra_body", "messages"} ==> Agree(f, g, k)
    ensures f == g <==> Agree(f, g, "priority") && Agree(f, g, "extra_body") && Agree(f, g, "messages")
  {
    if Agree(f, g, "priority") && Agree(f, g, "extra_body") && Agree(f, g, "messages") {
      forall k ensures Agree(f, g, k) {
        if k != "priority" && k != "extra_body" && k != "messages" {
          assert k !in {"priority", "extra_body", "messages"};
        }
      }
      forall k ensures k in f.Keys <==> k in g.Keys {
        assert Agree(f, g, k);
      }
      assert f.Keys == g.Keys;
      assert forall k :: k in f ==> Agree(f, g, k);
    }
  }

  lemma ReplacedFields(raw: Fields, model: string, vip: bool)
    ensures var g := Replaced(raw, model, vip);
            && "model" in g && g["model"] == Str(model)
            && (forall k :: k != "model" && k != "priority" ==> Agree(g, raw, k))
            && (if vip then "priority" in g && g["priority"] == Num(VIP_PRIORITY as real)
                else Agree(g, raw, "priority"))
  {
  }

  lemma RestAgrees(raw: Fields, model: string, vip: bool, k: string)
    requires k !in {"priority", "extra_body", "messages"}
    ensures Agree(Send(Prioritised(ParseRequest(raw), vip), model).fields, Replaced(raw, model, vip), k)
  {
    SentFields(raw, vip, model);
    OtherFields(raw, vip, model);
    ReplacedFields(raw, model, vip);
    if k != "model" {
      assert k !in {"priority", "extra_body", "messages", "model"};
    }
  }

  lemma OnlyModelReplaced(raw: Fields, model: string, vip: bool)
    ensures var f, g := Send(Prioritised(ParseRequest(raw), vip), model).fields, Replaced(raw, model, vip);
            && (forall k :: k !in {"priority", "extra_body", "messages"} ==> Agree(f, g, k))
            && (Agree(f, g, "extra_body") <==> Agree(f, raw, "extra_body"))
            && (Agree(f, g, "messages") <==> Agree(f, raw, "messages"))
            && (if vip then Agree(f, g, "priority") else Agree(f, g, "priority") <==> Agree(f, raw, "priority"))
  {
    var f, g := Send(Prioritised(ParseRequest(raw), vip), model).fields, Replaced(raw, model, vip);
    forall k | k !in {"priority", "extra_body", "messages"} ensures Agree(f, g, k) {
      RestAgrees(raw, model, vip, k);
    }
    SentFields(raw, vip, model);
    ReplacedFields(raw, model, vip);
  }

  /** The JSON sent upstream is the client's with only the model replaced exactly when the priority is an
  integer, the extra body has content of its own and no empty mode, and every message is an object with a
  role and a content, each of these only if present. */
  lemma PassThrough(raw: Fields, model: string)
    ensures Send(ParseRequest(raw), model) == Obj(raw["model" := Str(model)]) <==> WellFormed(raw)
  {
    OnlyModelReplaced(raw, model, false);
    PriorityAgrees(raw, model);
    ExtraBodyAgrees(raw, false, model);
    MessagesAgree(raw, false, model);
    SameFields(Send(ParseRequest(raw), model).fields, Replaced(raw, model, false));
  }

  /** For a VIP the priority is replaced as well, and then it does not matter what it was. */
  lemma PassThroughVip(raw: Fields, model: string)
    ensures Send(Prioritised(ParseRequest(raw), true), model)
            == Obj(raw["model" := Str(model)]["priority" := Num(10.0)])
            <==> WellFormed(raw - {"priority"})
  {
    OnlyModelReplaced(raw, model, true);
    ExtraBodyAgrees(raw, true, model);
    MessagesAgree(raw, true, model);
    SameFields(Send(Prioritised(ParseRequest(raw), true), model).fields, Replaced(raw, model, true));
  }

  // The readable elements are read in order; an unreadable one becomes an empty last message.
  lemma {:induction false} ParsedAt(elems: seq<Json>, i: nat)
    requires i < |elems| && AllReadable(elems[..i])
    ensures i < |ParseMessages(elems)|
    ensures Readable(elems[i]) ==> ParseMessages(elems)[i] == ParseMessage(elems[i]).value
    ensures !Readable(elems[i]) ==> ParseMessages(elems)[i] == ZERO_MESSAGE && |ParseMessages(elems)| == i + 1
  {
    if i > 0 {
      assert elems[..i][0] == elems[0] && elems[0] in elems[..i];
      assert elems[1..][..i - 1] == elems[..i][1..];
      ParsedAt(elems[1..], i - 1);
      assert ParseMessages(elems) == [ParseMessage(elems[0]).value] + ParseMessages(elems[1..]);
    }
  }

  lemma {:induction false} ParsedLength(elems: seq<Json>)
    ensures |ParseMessages(elems)| <= |elems|
    ensures AllReadable(elems) ==> |ParseMessages(elems)| == |elems|
    ensures !AllReadable(elems)
            ==> ParseMessages(elems) != [] && ParseMessages(elems)[|ParseMessages(elems)| - 1] == ZERO_MESSAGE
    ensures forall i :: 0 <= i < |ParseMessages(elems)| ==> AllReadable(elems[..i])
  {
    if elems != [] {
      ParsedLength(elems[1..]);
      assert elems == [elems[0]] + elems[1..];
      assert forall e :: e in elems <==> e == elems[0] || e in elems[1..];
      assert AllReadable(elems) <==> Readable(elems[0]) && AllReadable(elems[1..]);
      if Readable(elems[0]) {
        assert ParseMessages(elems) == [ParseMessage(elems[0]).value] + ParseMessages(elems[1..]);
      }
      forall i | 0 <= i < |ParseMessages(elems)| ensures AllReadable(elems[..i]) {
        if i > 0 {
          assert elems[..i] == [elems[0]] + elems[1..][..i - 1];
        }
      }
    }
  }

  lemma EmptyUserParsed(j: Json)
    requires Readable(j)
    ensures IsEmptyUser(ParseMessage(j).value) <==> EmptyUserJson(j)
  {
  }

  /** A request is turned away exactly when its body holds an empty user message before the first element
  that is no message. */
  lemma TurnedAwayExactly(raw: Fields, vip: bool, model: string)
    ensures Forwarded(raw, vip, model).None? <==> AsksNothing(raw)
  {
    if "messages" in raw && raw["messages"].Arr? {
      var elems := raw["messages"].elems;
      var parsed := ParseMessages(elems);
      EmptyAmong(elems);
      assert Prioritised(ParseRequest(raw), vip).messages == Some(parsed);
    }
  }

  lemma EmptyAmong(elems: seq<Json>)
    ensures (exists m :: m in ParseMessages(elems) && IsEmptyUser(m))
            <==> exists i :: 0 <= i < |elems| && AllReadable(elems[..i]) && EmptyUserJson(elems[i])
  {
    var parsed := ParseMessages(elems);
    ParsedLength(elems);
    if m :| m in parsed && IsEmptyUser(m) {
      var i :| 0 <= i < |parsed| && parsed[i] == m;
      ParsedAt(elems, i);
      if Readable(elems[i]) {
        EmptyUserParsed(elems[i]);
      }
    }
    if i :| 0 <= i < |elems| && AllReadable(elems[..i]) && EmptyUserJson(elems[i]) {
      ParsedAt(elems, i);
      EmptyUserParsed(elems[i]);
      assert parsed[i] in parsed;
    }
  }

  lemma ModeParsed(raw: Fields)
    ensures ParseRequest(raw).extraBody.promptMode
            == if "extra_body" in raw && raw["extra_body"].Obj? then TextAt(raw["extra_body"].fields, "prompt_mode")
               else ""
  {
  }

  lemma MarkerParsed(raw: Fields)
    ensures HasContinuationMarker(ParseRequest(raw))
            <==> TrueAt(raw, "continue_final_message") || EndsInPrefill(raw)
  {
    if "messages" in raw && raw["messages"].Arr? && raw["messages"].elems != [] {
      PrefillParsed(raw["messages"].elems);
    }
  }

  lemma ModeNamed(raw: Fields)
    ensures var mode := ParseRequest(raw).extraBody.promptMode;
            && (NamesMode(raw, "raw") <==> mode == "raw")
            && ((forall m: string :: NamesMode(raw, m) ==> m == "") <==> mode == "")
  {
    ModeParsed(raw);
    var mode := ParseRequest(raw).extraBody.promptMode;
    if mode != "" {
      assert NamesMode(raw, mode);
    }
  }

  /** For every body, raw mode is recognised exactly from what the body says. */
  lemma RawModeExactly(raw: Fields)
    ensures EffectiveMode(ParseRequest(raw)) == "raw" <==> AsksForRaw(raw)
  {
    ModeNamed(raw);
    MarkerParsed(raw);
  }

  lemma PrefillParsed(elems: seq<Json>)
    requires elems != []
    ensures var parsed := ParseMessages(elems);
            && parsed != []
            && var m, j := parsed[|parsed| - 1], elems[|elems| - 1];
               (m.role == "assistant" && (TrueAt(m.extra, "partial") || TrueAt(m.extra, "prefix")))
               <==> AllReadable(elems) && j.Obj? && TextAt(j.fields, "role") == "assistant"
                    && (TrueAt(j.fields, "partial") || TrueAt(j.fields, "prefix"))
  {
    ParsedLength(elems);
    if AllReadable(elems) {
      ParsedAt(elems, |elems| - 1);
    }
  }

  /** Passing on twice is passing on once: what was sent is always well formed, so a second gateway in
  the path changes nothing more. */
  lemma SentIsWellFormed(raw: Fields, model: string)
    ensures WellFormed(Send(ParseRequest(raw), model).fields)
    ensures Send(ParseRequest(Send(ParseRequest(raw), model).fields), model) == Send(ParseRequest(raw), model)
  {
    var p, r := ParseRequest(raw), Send(ParseRequest(raw), model).fields;
    SentFields(raw, false, model);
    if p.priority.Some? {
      TruncateExactly(p.priority.value as real);
    }
    if "extra_body" in r {
      NormalBody(raw["extra_body"]);
    }
    if p.messages.Some? {
      forall e | e in MessagesJson(p.messages.value) ensures GoodMessage(e) {}
    }
    PassThrough(r, model);
    assert Replaced(r, model, false) == r;
  }

  lemma NormalBody(j: Json)
    requires ParseExtraBody(j) != ZERO_BODY
    ensures GoodExtraBody(ExtraBodyJson(ParseExtraBody(j)))
  {
  }

  /** Retries and model switches reuse one request: whichever models were called before, a call sends the
  client's fields with its own model only. */
  lemma EarlierCallsDoNotShow(p: Params, earlier: string, model: string)
    ensures Send(p.(extra := p.extra["model" := Str(earlier)]), model) == Send(p, model)
  {
    assert p.extra["model" := Str(earlier)]["model" := Str(model)] == p.extra["model" := Str(model)];
  }
}
