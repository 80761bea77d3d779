/** Building, relaying, parsing and dispatching signaling messages (src/signaling_codec.cc,
    webrtc-signaling-server/main.go, src/signal_message_dispatcher.cc) over an abstract JSON tree.
    A field of the wrong type makes the client's parser throw; the server drops the message. */
module SignalingCodec {
  import opened Wrappers

  datatype Json =
    | Null
    | Bool(flag: bool)
    | Number(number: int)
    | String(text: string)
    | Array(items: seq<Json>)
    | Object(fields: map<string, Json>)

  datatype Result<T> = Ok(value: T) | Throws {
    predicate IsFailure() {
      Throws?
    }

    function PropagateFailure<U>(): Result<U>
      requires Throws?
    {
      Throws
    }

    function Extract(): T
      requires Ok?
    {
      value
    }
  }

  type Fields = map<string, Json>

  /** `value(key, default)` for each type it is used with. */
  function StringAt(o: Fields, key: string, fallback: string): Result<string> {
    if key !in o then Ok(fallback) else if o[key].String? then Ok(o[key].text) else Throws
  }

  function BoolAt(o: Fields, key: string, fallback: bool): Result<bool> {
    if key !in o then Ok(fallback) else if o[key].Bool? then Ok(o[key].flag) else Throws
  }

  function ObjectAt(o: Fields, key: string): Fields {
    if key in o && o[key].Object? then o[key].fields else map[]
  }

  // ----- The messages a client sends to another client -----

  datatype SessionDescription = SessionDescription(callId: string, kind: string, sdp: string)

  datatype IceCandidate = IceCandidate(callId: string, sdpMid: string, sdpMLineIndex: int, candidate: string)

  datatype Command =
    | CallRequest(callId: string, timestamp: int)
    | CallResponse(callId: string, accepted: bool, reason: string)
    | CallCancel(callId: string, reason: string)
    | CallEnd(callId: string, reason: string)
    | SendOffer(offer: SessionDescription)
    | SendAnswer(answer: SessionDescription)
    | SendCandidate(candidate: IceCandidate)

  function TypeOf(c: Command): string {
    match c
    case CallRequest(_, _) => "call-request"
    case CallResponse(_, _, _) => "call-response"
    case CallCancel(_, _) => "call-cancel"
    case CallEnd(_, _) => "call-end"
    case SendOffer(_) => "offer"
    case SendAnswer(_) => "answer"
    case SendCandidate(_) => "ice-candidate"
  }

  function WithReason(o: Fields, reason: string): Fields {
    if reason == "" then o else o["reason" := String(reason)]
  }

  function Description(d: SessionDescription): Fields {
    map["callId" := String(d.callId),
        "sdp" := Object(map["type" := String(d.kind), "sdp" := String(d.sdp)])]
  }

  function Payload(c: Command): Fields {
    match c
    case CallRequest(id, timestamp) => map["callId" := String(id), "timestamp" := Number(timestamp)]
    case CallResponse(id, accepted, reason) =>
      WithReason(map["callId" := String(id), "accepted" := Bool(accepted)], reason)
    case CallCancel(id, reason) => WithReason(map["callId" := String(id)], reason)
    case CallEnd(id, reason) => WithReason(map["callId" := String(id)], reason)
    case SendOffer(d) => Description(d)
    case SendAnswer(d) => Description(d)
    case SendCandidate(i) =>
      map["callId" := String(i.callId),
          "candidate" := Object(map["sdpMid" := String(i.sdpMid), "sdpMLineIndex" := Number(i.sdpMLineIndex),
                                    "candidate" := String(i.candidate)])]
  }

  function Envelope(kind: string, from: string, to: string, payload: Json): Json {
    var head := map["type" := String(kind), "from" := String(from)];
    var addressed := if to == "" then head else head["to" := String(to)];
    Object(if payload.Null? then addressed else addressed["payload" := payload])
  }

  function Build(from: string, to: string, c: Command): Json {
    Envelope(TypeOf(c), from, to, Object(Payload(c)))
  }

  // ----- The text on the wire -----

  /** One field of an object as it stands in a text. */
  datatype Field = Field(name: string, value: Json)

  /** A text: the fields of its object in the order written, possibly repeated, or anything else. */
  datatype Text = ObjectText(fields: seq<Field>) | OtherText

  /** The text spells out this object. */
  predicate Writes(fields: seq<Field>, o: Fields) {
    && (forall f <- fields :: f.name in o && o[f.name] == f.value)
    && (forall key <- o :: exists f <- fields :: f.name == key)
  }

  predicate EnvelopeKey(key: string) {
    key == "from" || key == "payload" || key == "to" || key == "type"
  }

  function FieldIn(o: Fields, key: string): seq<Field> {
    if key in o then [Field(key, o[key])] else []
  }

  /** The client's library writes the keys of an object in alphabetical order. */
  function Dump(o: Fields): seq<Field> {
    FieldIn(o, "from") + FieldIn(o, "payload") + FieldIn(o, "to") + FieldIn(o, "type")
  }

  lemma DumpWrites(o: Fields)
    requires forall key <- o :: EnvelopeKey(key)
    ensures Writes(Dump(o), o)
  {
    forall key <- o ensures exists f <- Dump(o) :: f.name == key {
      assert Field(key, o[key]) in FieldIn(o, key);
      assert Field(key, o[key]) in Dump(o);
    }
  }

  // ----- The server -----

  function Lower(ch: char): char {
    if 'A' <= ch <= 'Z' then ((ch as int) + 32) as char else ch
  }

  /** The server's decoder matches field names without regard to case. None of the four names holds a
      letter that a character outside ASCII folds to. */
  predicate Spells(key: string, name: string) {
    |key| == |name| && forall i | 0 <= i < |key| :: Lower(key[i]) == name[i]
  }

  /** A string field of the server's message record: the last one written counts, absent and null ones
      leave it as it was, and any value of another type makes the server drop the message. */
  function ServerString(fields: seq<Field>, name: string): Result<string> {
    if fields == [] then Ok("")
    else
      var last := fields[|fields| - 1];
      var before :- ServerString(fields[..|fields| - 1], name);
      if !Spells(last.name, name) || last.value.Null? then Ok(before)
      else if last.value.String? then Ok(last.value.text)
      else Throws
  }

  /** The payload is kept as it was written, whatever its type. */
  function ServerPayload(fields: seq<Field>): Option<Json> {
    if fields == [] then None
    else if Spells(fields[|fields| - 1].name, "payload") then Some(fields[|fields| - 1].value)
    else ServerPayload(fields[..|fields| - 1])
  }

  predicate Relayable(kind: string) {
    kind in ["offer", "answer", "ice-candidate", "conflict-resolution",
             "call-request", "call-response", "call-cancel", "call-end"]
  }

  /** What the server forwards for a text read from `uid`, and to whom; it overwrites the sender and
      forwards only the four fields it knows. */
  function Relay(uid: string, text: Text): Result<(string, Json)> {
    if text.OtherText? then Throws
    else
      var kind :- ServerString(text.fields, "type");
      var _ :- ServerString(text.fields, "from");
      var to :- ServerString(text.fields, "to");
      if !Relayable(kind) || to == "" then Throws
      else
        var head := map["type" := String(kind), "from" := String(uid), "to" := String(to)];
        var payload := ServerPayload(text.fields);
        Ok((to, Object(if payload.Some? then head["payload" := payload.value] else head)))
  }

  // ----- The receiving client -----

  datatype MessageType =
    | Registered | ClientList | UserOffline | Request | Response | Cancel | End
    | Offer | Answer | Candidate | Unknown

  function ParseMessageType(kind: string): MessageType {
    if kind == "registered" then Registered
    else if kind == "client-list" then ClientList
    else if kind == "user-offline" then UserOffline
    else if kind == "call-request" then Request
    else if kind == "call-response" then Response
    else if kind == "call-cancel" then Cancel
    else if kind == "call-end" then End
    else if kind == "offer" then Offer
    else if kind == "answer" then Answer
    else if kind == "ice-candidate" then Candidate
    else Unknown
  }

  function CallIdOf(o: Fields): Result<string> {
    var legacy :- StringAt(o, "call_id", "");
    StringAt(o, "callId", legacy)
  }

  function ParseSessionDescription(o: Fields, fallback: string): Result<SessionDescription> {
    var id :- CallIdOf(o);
    if "sdp" in o && o["sdp"].Object? then
      var kind :- StringAt(o["sdp"].fields, "type", fallback);
      var sdp :- StringAt(o["sdp"].fields, "sdp", "");
      Ok(SessionDescription(id, kind, sdp))
    else
      var kind :- StringAt(o, "type", fallback);
      var sdp :- StringAt(o, "sdp", "");
      Ok(SessionDescription(id, kind, sdp))
  }

  function IntAt(o: Fields, key: string): Result<int> {
    if key !in o then Throws
    else match o[key]
      case Number(n) => Ok(n)
      case Bool(flag) => Ok(if flag then 1 else 0)
      case _ => Throws
  }

  function MLineIndex(o: Fields): Result<int> {
    if "sdpMLineIndex" in o then IntAt(o, "sdpMLineIndex")
    else if "sdpMlineIndex" in o then IntAt(o, "sdpMlineIndex")
    else if "sdp_mline_index" in o then IntAt(o, "sdp_mline_index")
    else Ok(-1)
  }

  function ParseIceCandidate(o: Fields): Result<IceCandidate> {
    var id :- CallIdOf(o);
    var inner := if "candidate" in o && o["candidate"].Object? then o["candidate"].fields else o;
    var mid :- StringAt(inner, "sdpMid", "");
    var mid' :- if mid == "" then StringAt(inner, "sdp_mid", "") else Ok(mid);
    var index :- MLineIndex(inner);
    var candidate :- StringAt(inner, "candidate", "");
    Ok(IceCandidate(id, mid', index, candidate))
  }

  /** One entry of the client list; an entry without a name is left out. */
  function ParseClient(entry: Json): Result<string> {
    match entry
    case Object(fields) => StringAt(fields, "id", "")
    case String(text) => Ok(text)
    case _ => Ok("")
  }

  function ParseClients(items: seq<Json>): Result<seq<string>> {
    if items == [] then Ok([])
    else
      var before :- ParseClients(items[..|items| - 1]);
      var id :- ParseClient(items[|items| - 1]);
      Ok(if id == "" then before else before + [id])
  }

  function ParseClientList(payload: Fields): Result<seq<string>> {
    if "clients" in payload && payload["clients"].Array? then ParseClients(payload["clients"].items) else Ok([])
  }

  /** The observer callbacks of `SignalClientObserver`. */
  datatype Callback =
    | OnIceServersReceived
    | OnClientListUpdate(clients: seq<string>)
    | OnUserOffline(client: string)
    | OnCallRequest(from: string, callId: string)
    | OnCallResponse(from: string, callId: string, accepted: bool, reason: string)
    | OnCallCancel(from: string, callId: string, reason: string)
    | OnCallEnd(from: string, callId: string, reason: string)
    | OnOffer(from: string, description: SessionDescription)
    | OnAnswer(from: string, description: SessionDescription)
    | OnIceCandidate(from: string, candidate: IceCandidate)

  /** Parsing and dispatching one message: the callbacks it causes. */
  function Dispatch(message: Json): Result<seq<Callback>> {
    if !message.Object? then Ok([])
    else
      var o := message.fields;
      var p := ObjectAt(o, "payload");
      var kind :- StringAt(o, "type", "");
      var from :- StringAt(o, "from", "");
      match ParseMessageType(kind)
      case Registered => Ok([OnIceServersReceived])
      case ClientList =>
        var clients :- ParseClientList(p);
        Ok([OnClientListUpdate(clients)])
      case UserOffline =>
        var client :- StringAt(p, "clientId", "");
        Ok([OnUserOffline(client)])
      case Request =>
        var id :- CallIdOf(p);
        Ok([OnCallRequest(from, id)])
      case Response =>
        var id :- CallIdOf(p);
        var accepted :- BoolAt(p, "accepted", false);
        var reason :- StringAt(p, "reason", "");
        Ok([OnCallResponse(from, id, accepted, reason)])
      case Cancel =>
        var id :- CallIdOf(p);
        var reason :- StringAt(p, "reason", "");
        Ok([OnCallCancel(from, id, reason)])
      case End =>
        var id :- CallIdOf(p);
        var reason :- StringAt(p, "reason", "");
        Ok([OnCallEnd(from, id, reason)])
      case Offer =>
        var d :- ParseSessionDescription(p, "offer");
        Ok([OnOffer(from, d)])
      case Answer =>
        var d :- ParseSessionDescription(p, "answer");
        Ok([OnAnswer(from, d)])
      case Candidate =>
        var i :- ParseIceCandidate(p);
        Ok([OnIceCandidate(from, i)])
      case Unknown => Ok([])
  }

  /** What the receiver of a command is told. */
  function Told(uid: string, c: Command): Callback {
    match c
    case CallRequest(id, _) => OnCallRequest(uid, id)
    case CallResponse(id, accepted, reason) => OnCallResponse(uid, id, accepted, reason)
    case CallCancel(id, reason) => OnCallCancel(uid, id, reason)
    case CallEnd(id, reason) => OnCallEnd(uid, id, reason)
    case SendOffer(d) => OnOffer(uid, d)
    case SendAnswer(d) => OnAnswer(uid, d)
    case SendCandidate(i) => OnIceCandidate(uid, i)
  }

  // ----- End to end -----

  lemma TypeIsRead(c: Command)
    ensures Relayable(TypeOf(c))
    ensures ParseMessageType(TypeOf(c)) ==
            match c
            case CallRequest(_, _) => Request
            case CallResponse(_, _, _) => Response
            case CallCancel(_, _) => Cancel
            case CallEnd(_, _) => End
            case SendOffer(_) => Offer
            case SendAnswer(_) => Answer
            case SendCandidate(_) => Candidate
  {
    assert "user-offline"[0] == 'u' && "call-request"[0] == 'c';
    assert "client-list"[1] == 'l' && "call-cancel"[1] == 'a';
    assert "ice-candidate"[0] == 'i' && "call-response"[0] == 'c';
  }

  function Relayed(uid: string, to: string, kind: string, payload: Fields): Json {
    Object(map["type" := String(kind), "from" := String(uid), "to" := String(to), "payload" := Object(payload)])
  }

  /** A key of the client's envelope spells only its own name. */
  lemma SpellsItself(key: string, name: string)
    requires EnvelopeKey(key) && EnvelopeKey(name)
    ensures Spells(key, name) <==> key == name
  {
    assert Lower("type"[0]) == 't' && Lower("from"[0]) == 'f';
  }

  lemma {:induction false} ServerReads(fields: seq<Field>, name: string, text: string)
    requires forall f <- fields :: Spells(f.name, name) ==> f.value == String(text)
    ensures ServerString(fields, name) == Ok(if exists f <- fields :: Spells(f.name, name) then text else "")
  {
    if fields != [] {
      ServerReads(fields[..|fields| - 1], name, text);
      assert fields == fields[..|fields| - 1] + [fields[|fields| - 1]];
    }
  }

  lemma {:induction false} ServerKeeps(fields: seq<Field>, payload: Json)
    requires forall f <- fields :: Spells(f.name, "payload") ==> f.value == payload
    ensures ServerPayload(fields) == if exists f <- fields :: Spells(f.name, "payload") then Some(payload) else None
  {
    if fields != [] {
      ServerKeeps(fields[..|fields| - 1], payload);
      assert fields == fields[..|fields| - 1] + [fields[|fields| - 1]];
    }
  }

  /** The server reads from a text what the client wrote into it. */
  lemma WrittenIsRead(fields: seq<Field>, o: Fields, name: string)
    requires Writes(fields, o) && EnvelopeKey(name) && name in o && forall key <- o :: EnvelopeKey(key)
    ensures o[name].String? ==> ServerString(fields, name) == Ok(o[name].text)
    ensures name == "payload" ==> ServerPayload(fields) == Some(o[name])
  {
    forall f <- fields ensures Spells(f.name, name) <==> f.name == name {
      SpellsItself(f.name, name);
    }
    var f :| f in fields && f.name == name;
    assert Spells(f.name, name);
    if o[name].String? {
      ServerReads(fields, name, o[name].text);
    }
    if name == "payload" {
      ServerKeeps(fields, o[name]);
    }
  }

  lemma BuiltEnvelope(from: string, to: string, c: Command)
    requires to != ""
    ensures Build(from, to, c).fields ==
            map["type" := String(TypeOf(c)), "from" := String(from), "to" := String(to),
                "payload" := Object(Payload(c))]
  {
  }

  lemma RelayedForm(uid: string, from: string, to: string, c: Command, fields: seq<Field>)
    requires to != "" && Writes(fields, Build(from, to, c).fields)
    ensures Relay(uid, ObjectText(fields)) == Ok((to, Relayed(uid, to, TypeOf(c), Payload(c))))
  {
    TypeIsRead(c);
    BuiltEnvelope(from, to, c);
    assert "type"[0] == 't' && "from"[0] == 'f';
    var o := Build(from, to, c).fields;
    WrittenIsRead(fields, o, "type");
    WrittenIsRead(fields, o, "from");
    WrittenIsRead(fields, o, "to");
    WrittenIsRead(fields, o, "payload");
  }

  lemma RelayedFields(uid: string, to: string, kind: string, payload: Fields)
    ensures var o := Relayed(uid, to, kind, payload).fields;
            && StringAt(o, "type", "") == Ok(kind) && StringAt(o, "from", "") == Ok(uid)
            && ObjectAt(o, "payload") == payload
  {
    assert "type"[0] == 't' && "from"[0] == 'f';
  }

  lemma ControlRoundTrip(uid: string, to: string, c: Command)
    requires c.CallRequest? || c.CallResponse? || c.CallCancel? || c.CallEnd?
    ensures Dispatch(Relayed(uid, to, TypeOf(c), Payload(c))) == Ok([Told(uid, c)])
  {
    TypeIsRead(c);
    RelayedFields(uid, to, TypeOf(c), Payload(c));
    assert "accepted"[0] == 'a' && "callId"[0] == 'c' && "reason"[0] == 'r' && "timestamp"[0] == 't';
    assert "callId"[4] == 'I' && "call_id"[4] == '_';
    assert CallIdOf(Payload(c)) == Ok(c.callId);
  }

  lemma DescriptionRoundTrip(uid: string, to: string, c: Command)
    requires c.SendOffer? || c.SendAnswer?
    ensures Dispatch(Relayed(uid, to, TypeOf(c), Payload(c))) == Ok([Told(uid, c)])
  {
    TypeIsRead(c);
    RelayedFields(uid, to, TypeOf(c), Payload(c));
    assert "callId"[4] == 'I' && "call_id"[4] == '_' && "type"[0] == 't' && "sdp"[0] == 's';
    var d := if c.SendOffer? then c.offer else c.answer;
    assert CallIdOf(Description(d)) == Ok(d.callId);
    assert ParseSessionDescription(Description(d), if c.SendOffer? then "offer" else "answer") == Ok(d);
  }

  lemma CandidateRoundTrip(uid: string, to: string, c: Command)
    requires c.SendCandidate?
    ensures Dispatch(Relayed(uid, to, TypeOf(c), Payload(c))) == Ok([Told(uid, c)])
  {
    TypeIsRead(c);
    RelayedFields(uid, to, TypeOf(c), Payload(c));
    var i := c.candidate;
    assert "callId"[4] == 'I' && "call_id"[4] == '_';
    assert "candidate"[0] == 'c' && "sdp_mid"[3] == '_' && "sdpMid"[3] == 'M' && "sdpMLineIndex"[3] == 'M';
    assert CallIdOf(Payload(c)) == Ok(i.callId);
    assert ParseIceCandidate(Payload(c)) == Ok(i);
  }

  /** For each of the seven kinds of command with a non-empty target, however its text orders the
      fields: building, relaying, parsing and dispatching invoke exactly one callback at the target,
      with the sender's uid as the server knows it and the original arguments, empty reasons and
      fields included. */
  lemma EndToEnd(uid: string, from: string, to: string, c: Command, fields: seq<Field>)
    requires to != "" && Writes(fields, Build(from, to, c).fields)
    ensures var r := Relay(uid, ObjectText(fields));
            r.Ok? && r.value.0 == to && Dispatch(r.value.1) == Ok([Told(uid, c)])
  {
    RelayedForm(uid, from, to, c, fields);
    match c
    case SendOffer(_) => DescriptionRoundTrip(uid, to, c);
    case SendAnswer(_) => DescriptionRoundTrip(uid, to, c);
    case SendCandidate(_) => CandidateRoundTrip(uid, to, c);
    case _ => ControlRoundTrip(uid, to, c);
  }

  // ----- What the server itself says -----

  function Registration(uid: string, servers: Json): Json {
    Object(map["type" := String("registered"), "from" := String(uid), "payload" := servers])
  }

  function Entries(uids: seq<string>): seq<Json> {
    seq(|uids|, i requires 0 <= i < |uids| => Object(map["id" := String(uids[i])]))
  }

  /** The server writes an empty list as null. */
  function ClientListing(uids: seq<string>): Json {
    Object(map["type" := String("client-list"),
               "payload" := Object(map["clients" := if uids == [] then Null else Array(Entries(uids))])])
  }

  function OfflineNotice(uid: string): Json {
    Object(map["type" := String("user-offline"), "from" := String("server"),
               "payload" := Object(map["clientId" := String(uid)])])
  }

  lemma ServerTypes()
    ensures ParseMessageType("registered") == Registered
    ensures ParseMessageType("client-list") == ClientList
    ensures ParseMessageType("user-offline") == UserOffline
  {
    assert "registered"[0] == 'r' && "client-list"[0] == 'c' && "user-offline"[0] == 'u';
  }

  lemma {:induction false} ClientsAreRead(uids: seq<string>)
    requires "" !in uids
    ensures ParseClients(Entries(uids)) == Ok(uids)
  {
    if uids != [] {
      var before := uids[..|uids| - 1];
      ClientsAreRead(before);
      assert Entries(uids)[..|uids| - 1] == Entries(before);
      assert uids == before + [uids[|uids| - 1]];
    }
  }

  /** Each of the server's own messages invokes its own callback: the servers on registration, the list
      of clients with everybody on it in order, and the name of the user that went offline. */
  lemma ServerIsHeard(uid: string, payload: Json, uids: seq<string>)
    requires "" !in uids
    ensures Dispatch(Registration(uid, payload)) == Ok([OnIceServersReceived])
    ensures Dispatch(ClientListing(uids)) == Ok([OnClientListUpdate(uids)])
    ensures Dispatch(OfflineNotice(uid)) == Ok([OnUserOffline(uid)])
  {
    ServerTypes();
    ClientsAreRead(uids);
    assert "type"[0] == 't' && "from"[0] == 'f' && "payload"[0] == 'p';
    assert ObjectAt(OfflineNotice(uid).fields, "payload") == map["clientId" := String(uid)];
    assert ObjectAt(ClientListing(uids).fields, "payload") ==
           map["clients" := if uids == [] then Null else Array(Entries(uids))];
  }

  // ----- Older spellings -----

  /** A session description as older peers write it: flat, with the call id in snake case. */
  function LegacyDescription(d: SessionDescription): Fields {
    map["call_id" := String(d.callId), "type" := String(d.kind), "sdp" := String(d.sdp)]
  }

  /** A candidate as older peers write it: flat and in snake case. */
  function LegacyCandidate(i: IceCandidate): Fields {
    map["call_id" := String(i.callId), "sdp_mid" := String(i.sdpMid), "sdp_mline_index" := Number(i.sdpMLineIndex),
        "candidate" := String(i.candidate)]
  }

  /** Older spellings are read as the newer ones are, and a line given as a boolean as its number. */
  lemma LegacyIsRead(d: SessionDescription, i: IceCandidate, fallback: string)
    ensures ParseSessionDescription(LegacyDescription(d), fallback) == Ok(d)
    ensures ParseIceCandidate(LegacyCandidate(i)) == Ok(i)
    ensures MLineIndex(map["sdpMlineIndex" := Number(i.sdpMLineIndex)]) == Ok(i.sdpMLineIndex)
    ensures MLineIndex(map["sdpMLineIndex" := Bool(true)]) == Ok(1)
    ensures MLineIndex(map["sdpMLineIndex" := Bool(false)]) == Ok(0)
  {
    assert "call_id"[0] == 'c' && "call_id"[4] == '_' && "callId"[4] == 'I';
    assert "type"[0] == 't' && "sdp"[0] == 's';
    assert "sdp_mid"[4] == 'm' && "sdp_mid"[5] == 'i' && "sdp_mline_index"[5] == 'l' && "candidate"[0] == 'c';
    assert "sdpMid"[3] == 'M' && "sdpMLineIndex"[3] == 'M' && "sdpMlineIndex"[3] == 'M';
    assert "sdpMLineIndex"[4] == 'L' && "sdpMlineIndex"[4] == 'l';
  }

  /** An empty reason is left out of a message, and a message without a target is not relayed. */
  lemma EmptyIsOmitted(uid: string, from: string, c: Command, fields: seq<Field>)
    ensures (c.CallResponse? || c.CallCancel? || c.CallEnd?) && c.reason == "" ==> "reason" !in Payload(c)
    ensures Writes(fields, Build(from, "", c).fields) ==> Relay(uid, ObjectText(fields)) == Throws
  {
    assert "reason"[0] == 'r' && "callId"[0] == 'c' && "accepted"[0] == 'a';
    if Writes(fields, Build(from, "", c).fields) {
      assert "to"[1] == 'o' && "type"[1] == 'y' && |"to"| == 2;
      forall f <- fields ensures !Spells(f.name, "to") {
        SpellsItself(f.name, "to");
      }
      ServerReads(fields, "to", "");
    }
  }

  /** What is missing is taken as empty: no call id, the kind the message type implies, no text, no mid
      and line -1. */
  lemma MissingIsEmpty(fallback: string)
    ensures ParseSessionDescription(map[], fallback) == Ok(SessionDescription("", fallback, ""))
    ensures ParseIceCandidate(map[]) == Ok(IceCandidate("", "", -1, ""))
  {
  }

  predicate FromPeer(call: Callback, uid: string) {
    match call
    case OnIceServersReceived => false
    case OnClientListUpdate(_) => false
    case OnUserOffline(_) => false
    case OnCallRequest(from, _) => from == uid
    case OnCallResponse(from, _, _, _) => from == uid
    case OnCallCancel(from, _, _) => from == uid
    case OnCallEnd(from, _, _) => from == uid
    case OnOffer(from, _) => from == uid
    case OnAnswer(from, _) => from == uid
    case OnIceCandidate(from, _) => from == uid
  }

  lemma RelayableIsNoServerMessage(kind: string)
    requires Relayable(kind)
    ensures ParseMessageType(kind) !in {Registered, ClientList, UserOffline}
  {
    assert "user-offline"[0] == 'u' && "call-request"[0] == 'c';
    assert "client-list"[1] == 'l' && "call-cancel"[1] == 'a';
    assert "registered"[0] == 'r';
  }

  /** A relayed message has a relayable type and its true sender. */
  lemma RelayStamps(uid: string, text: Text)
    requires Relay(uid, text).Ok?
    ensures var out := Relay(uid, text).value.1;
            && out.Object? && StringAt(out.fields, "from", "") == Ok(uid)
            && StringAt(out.fields, "type", "").Ok? && Relayable(StringAt(out.fields, "type", "").value)
  {
    var kind := ServerString(text.fields, "type").value;
    assert "type"[0] == 't' && "from"[0] == 'f' && "payload"[0] == 'p' && "to"[0] == 't';
    assert StringAt(Relay(uid, text).value.1.fields, "type", "") == Ok(kind);
  }

  lemma DispatchNamesSender(o: Fields, uid: string)
    requires Dispatch(Object(o)).Ok? && StringAt(o, "from", "") == Ok(uid)
    requires StringAt(o, "type", "").Ok? && Relayable(StringAt(o, "type", "").value)
    ensures var calls := Dispatch(Object(o)).value;
            |calls| <= 1 && forall call <- calls :: FromPeer(call, uid)
  {
    RelayableIsNoServerMessage(StringAt(o, "type", "").value);
  }

  /** Whatever a client sends, well formed or not, with names in any case and fields repeated: what the
      server relays of it reaches the observer only under the sender's true uid, at most once, and
      never as one of the server's own messages. */
  lemma SenderCannotPose(uid: string, text: Text)
    requires Relay(uid, text).Ok? && Dispatch(Relay(uid, text).value.1).Ok?
    ensures var calls := Dispatch(Relay(uid, text).value.1).value;
            |calls| <= 1 && forall call <- calls :: FromPeer(call, uid)
  {
    RelayStamps(uid, text);
    DispatchNamesSender(Relay(uid, text).value.1.fields, uid);
  }
}
