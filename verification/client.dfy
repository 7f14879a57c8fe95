/** The message, open and close handlers of the websocket client (main.js:115-197) and
    the module-level state they share (main.js:11-14). `ClientState` and the functions on
    it are the specification; the class `Client` holds the same state in mutable fields,
    as the source does. `Open`, `Close` and `OnMessage` are each proved to perform one
    `Apply` step and to keep `Consistent`; `ReceiveText`, `ReceiveBinary`, `StoreKey` and
    `HandleMessage` are parts of `OnMessage`, each proved equal to its part of the step
    (`OnText`, `OnBinary`, `UpdateKey`, `Deliver`). */
module Client {
  import opened Wrappers
  import opened JsValues
  import opened Bytes
  import opened Frames
  import opened Keys
  import opened Dispatch

  /** The library and platform calls the handler makes, as total functions. `None` is a
      thrown exception or a rejected promise, which the handler's `catch` swallows. */
  datatype Host = Host(
    token: string,                                              // RAPIDLAUNCH_TOKEN
    jsonParse: string -> Option<JsValue>,                       // JSON.parse
    base64ToBytes: JsValue -> Option<seq<byte>>,                // Buffer.from(v, "base64")
    importKey: seq<byte> -> Option<CryptoKey>,                  // subtle.importKey("raw", ...)
    decrypt: (CryptoKey, seq<byte>, seq<byte>) -> Option<seq<byte>>, // AES-GCM, 128-bit tag
    utf8Decode: seq<byte> -> string)                            // TextDecoder().decode

  /** One call of `handleMessage`: the handler the switch chose and the event's `t`, `d`. */
  datatype Delivery = Delivery(handler: Handler, t: JsValue, d: JsValue)

  /** Everything the handlers change: the key store, `isAuthenticated`, the frames sent
      on the socket, the events handed to `handleMessage`, and the payloads with which
      the metadata and trade pipeline was started. */
  datatype ClientState = ClientState(
    keys: KeyStore,
    authenticated: bool,
    outbox: seq<string>,
    deliveries: seq<Delivery>,
    pipelineRuns: seq<JsValue>)

  /** A websocket message: text (`isBinary` false) or binary. */
  datatype Frame = Text(msg: string) | Binary(bytes: seq<byte>)

  /** The socket callbacks that change state (`error` only logs). */
  datatype SocketEvent = Opened | Received(frame: Frame) | Closed

  /** Sent when the socket opens: join the `tweets` namespace. */
  const JoinFrame := "40/tweets,"
  /** Reply to a heartbeat. */
  const PongFrame := "3"

  /** The authenticate event for the `tweets` namespace, carrying the bearer token. */
  function AuthFrame(token: string): (f: string)
    ensures "42/tweets," <= f && f != JoinFrame && f != PongFrame
  {
    "42/tweets,[\"authenticate\", {\"token\":\"" + token + "\"}]"
  }

  /** The state when the process starts. */
  function Initial(): (st: ClientState)
    ensures st.keys == Empty && !st.authenticated && st.outbox == []
  {
    ClientState(Empty, false, [], [], [])
  }

  /** The payloads of the handler calls that started the pipeline, in order. */
  function PipelinePayloads(ds: seq<Delivery>): seq<JsValue>
  {
    if ds == [] then []
    else PipelinePayloads(ds[..|ds| - 1]) + (if RunsPipeline(ds[|ds| - 1].handler) then [ds[|ds| - 1].d] else [])
  }

  /** What every callback keeps: the key invariant of `Keys.Valid`, and the pipeline has
      been started exactly once for each `tweet_full_update` event, with its payload. */
  predicate Consistent(st: ClientState)
  {
    && Keys.Valid(st.keys)
    && st.pipelineRuns == PipelinePayloads(st.deliveries)
  }

  /** The `open` handler: send the namespace join. */
  function OnOpen(st: ClientState): ClientState
  {
    st.(outbox := st.outbox + [JoinFrame])
  }

  /** The `close` handler: forget the authentication of this connection; the keys stay.
      (The reconnect timer is not modelled.) */
  function OnClose(st: ClientState): ClientState
  {
    st.(authenticated := false)
  }

  /** A key event names one of the two key-carrying events. */
  predicate IsKeyEvent(event: JsValue)
  {
    event == Str("crypto:broadcast_key") || event == Str("crypto:key_rotate")
  }

  /** A key event's data: read `key_b64`, decode it, import the key, then store it under
      `key_id` and make that id active. A failure at any step throws into the `catch`. */
  function UpdateKey(st: ClientState, data: JsValue, host: Host): ClientState
  {
    match Property(data, "key_b64")
    case None => st
    case Some(b64) =>
      match host.base64ToBytes(b64)
      case None => st
      case Some(raw) =>
        match host.importKey(raw)
        case None => st
        case Some(key) => st.(keys := Put(st.keys, Property(data, "key_id").value, key))
  }

  /** A `42/tweets` frame: parse the JSON part and destructure `[event, data]`. The
      `authenticated` event and every other event only log. */
  function OnNamespaceEvent(st: ClientState, jsonPart: string, host: Host): ClientState
  {
    match host.jsonParse(jsonPart)
    case None => st
    case Some(parsed) =>
      match FirstTwo(parsed)
      case None => st
      case Some((event, data)) =>
        if event == Str("authenticated") then st
        else if IsKeyEvent(event) then UpdateKey(st, data, host)
        else st
  }

  /** The text branch of the message handler. */
  function OnText(st: ClientState, msg: string, host: Host): ClientState
  {
    match ClassifyText(msg)
    case Heartbeat => st.(outbox := st.outbox + [PongFrame])
    case NamespaceOpen =>
      if st.authenticated then st
      else st.(outbox := st.outbox + [AuthFrame(host.token)], authenticated := true)
    case NamespaceEvent(jsonPart) => OnNamespaceEvent(st, jsonPart, host)
    case Ignored => st
  }

  /** Where the binary branch stops for one frame. */
  datatype BinaryOutcome =
    | TooShort        // fewer than 29 bytes
    | NoKey           // neither the frame's key id nor a usable active id is stored
    | Undecryptable   // AES-GCM rejected the frame (tag mismatch)
    | Unparsable      // the plaintext is not JSON
    | Decoded(value: JsValue)

  /** The key id byte as the `Map` key it is looked up under. */
  function FrameKeyId(b: byte): JsValue
  {
    Number(b as real)
  }

  /** The binary branch up to `handleMessage`: split, look up the key, decrypt the
      ciphertext followed by the tag, decode and parse. */
  function DecodeBinary(ks: KeyStore, u: seq<byte>, host: Host): (o: BinaryOutcome)
    ensures o.TooShort? <==> |u| < MinFrameLength
    ensures o.NoKey? <==> |u| >= MinFrameLength && Lookup(ks, FrameKeyId(u[0])).None?
    ensures |u| >= MinFrameLength && Lookup(ks, FrameKeyId(u[0])).Some? ==>
              (o.Undecryptable? <==> host.decrypt(Lookup(ks, FrameKeyId(u[0])).value, u[1..13], u[13..]).None?)
    ensures |u| >= MinFrameLength && Lookup(ks, FrameKeyId(u[0])).Some? &&
            host.decrypt(Lookup(ks, FrameKeyId(u[0])).value, u[1..13], u[13..]).Some? ==>
              var plain := host.decrypt(Lookup(ks, FrameKeyId(u[0])).value, u[1..13], u[13..]).value;
              && (o.Unparsable? <==> host.jsonParse(host.utf8Decode(plain)).None?)
              && (o.Decoded? ==> Some(o.value) == host.jsonParse(host.utf8Decode(plain)))
  {
    match SplitFrame(u)
    case None => TooShort
    case Some(f) =>
      match Lookup(ks, FrameKeyId(f.keyId))
      case None => NoKey
      case Some(key) =>
        FlattenPair(f.ciphertext, f.tag);
        assert Flatten([f.ciphertext, f.tag]) == u[13..];
        match host.decrypt(key, f.iv, Flatten([f.ciphertext, f.tag]))
        case None => Undecryptable
        case Some(plain) =>
          match host.jsonParse(host.utf8Decode(plain))
          case None => Unparsable
          case Some(v) => Decoded(v)
  }

  /** `handleMessage({ t, d })`: destructuring throws for `null`; otherwise the switch on
      `t` picks a handler, and `tweet_full_update` also starts the pipeline with `d`. */
  function Deliver(st: ClientState, decoded: JsValue): ClientState
  {
    match (Property(decoded, "t"), Property(decoded, "d"))
    case (Some(t), Some(d)) =>
      var h := Route(t);
      st.(deliveries := st.deliveries + [Delivery(h, t, d)],
          pipelineRuns := if RunsPipeline(h) then st.pipelineRuns + [d] else st.pipelineRuns)
    case _ => st
  }

  /** The binary branch of the message handler. */
  function OnBinary(st: ClientState, u: seq<byte>, host: Host): ClientState
  {
    match DecodeBinary(st.keys, u, host)
    case Decoded(v) => Deliver(st, v)
    case _ => st
  }

  /** The `message` handler. */
  function Receive(st: ClientState, frame: Frame, host: Host): ClientState
  {
    match frame
    case Text(msg) => OnText(st, msg, host)
    case Binary(u) => OnBinary(st, u, host)
  }

  /** One socket callback. */
  function Apply(st: ClientState, e: SocketEvent, host: Host): ClientState
  {
    match e
    case Opened => OnOpen(st)
    case Received(frame) => Receive(st, frame, host)
    case Closed => OnClose(st)
  }

  /** Callbacks in arrival order, each run to completion before the next. */
  function Run(st: ClientState, es: seq<SocketEvent>, host: Host): ClientState
    decreases |es|
  {
    if es == [] then st else Run(Apply(st, es[0], host), es[1..], host)
  }

  /** How often `x` occurs in `s`. */
  function Count(s: seq<string>, x: string): nat
  {
    if s == [] then 0
    else Count(s[..|s| - 1], x) + (if s[|s| - 1] == x then 1 else 0)
  }

  /** The class the source's module-level variables and socket amount to. */
  class Client {
    const host: Host
    var keyMap: map<JsValue, CryptoKey>
    var activeKeyId: JsValue
    var isAuthenticated: bool
    var outbox: seq<string>
    var deliveries: seq<Delivery>
    var pipelineRuns: seq<JsValue>

    /** The fields as a specification value. */
    function State(): ClientState
      reads this
    {
      ClientState(KeyStore(keyMap, activeKeyId), isAuthenticated, outbox, deliveries, pipelineRuns)
    }

    ghost predicate Valid()
      reads this
    {
      Consistent(State())
    }

    /** The module-level initialisers. */
    constructor(host: Host)
      ensures this.host == host && State() == Initial() && Valid()
    {
      this.host := host;
      keyMap := map[];
      activeKeyId := Null;
      isAuthenticated := false;
      outbox := [];
      deliveries := [];
      pipelineRuns := [];
    }

    /** `ws.on("open")`. */
    method Open()
      requires Valid()
      modifies this
      ensures Valid() && State() == OnOpen(old(State()))
    {
      outbox := outbox + [JoinFrame];
    }

    /** `ws.on("close")`. */
    method Close()
      requires Valid()
      modifies this
      ensures Valid() && State() == OnClose(old(State()))
    {
      isAuthenticated := false;
    }

    /** `handleMessage`. */
    method HandleMessage(decoded: JsValue)
      modifies this
      ensures State() == Deliver(old(State()), decoded)
    {
      if decoded.Undefined? || decoded.Null? {
        return;
      }
      var t := Property(decoded, "t").value;
      var d := Property(decoded, "d").value;
      var h := Route(t);
      deliveries := deliveries + [Delivery(h, t, d)];
      if h == FullTweet {
        pipelineRuns := pipelineRuns + [d];
      }
    }

    /** A key event's data (main.js:151-154). */
    method StoreKey(data: JsValue)
      modifies this
      ensures State() == UpdateKey(old(State()), data, host)
    {
      var b64 := Property(data, "key_b64");
      if b64.None? {
        return;
      }
      var raw := host.base64ToBytes(b64.value);
      if raw.None? {
        return;
      }
      var key := host.importKey(raw.value);
      if key.None? {
        return;
      }
      var id := Property(data, "key_id").value;
      keyMap := keyMap[id := key.value];
      activeKeyId := id;
    }

    /** The text branch of `ws.on("message")`. */
    method ReceiveText(msg: string)
      modifies this
      ensures State() == OnText(old(State()), msg, host)
    {
      if msg == "2" {
        outbox := outbox + [PongFrame];
        return;
      }
      if "40" <= msg {
        if !isAuthenticated {
          outbox := outbox + [AuthFrame(host.token)];
          isAuthenticated := true;
        }
        return;
      }
      if "42/tweets" <= msg {
        var jsonPart := Substring(msg, IndexOf(msg, '['));
        var parsed := host.jsonParse(jsonPart);
        if parsed.None? {
          return;
        }
        var pair := FirstTwo(parsed.value);
        if pair.None? {
          return;
        }
        var (event, data) := pair.value;
        if event == Str("authenticated") {
        } else if event == Str("crypto:broadcast_key") || event == Str("crypto:key_rotate") {
          StoreKey(data);
        }
      }
    }

    /** The binary branch of `ws.on("message")`. */
    method ReceiveBinary(u: seq<byte>)
      modifies this
      ensures State() == OnBinary(old(State()), u, host)
    {
      if |u| < MinFrameLength {
        return;
      }
      var keyId := u[0];
      var iv := u[1..13];
      var tag := u[|u| - 16..];
      var ciphertext := u[13..|u| - 16];
      var key := Lookup(KeyStore(keyMap, activeKeyId), FrameKeyId(keyId));
      if key.None? {
        return;
      }
      var sealed := ConcatUint8([ciphertext, tag]);
      FlattenPair(ciphertext, tag);
      var decrypted := host.decrypt(key.value, iv, sealed[..]);
      if decrypted.None? {
        return;
      }
      var decoded := host.jsonParse(host.utf8Decode(decrypted.value));
      if decoded.None? {
        return;
      }
      HandleMessage(decoded.value);
    }

    /** `ws.on("message")`: every `return` and every caught exception leaves the
        remaining fields as they were. */
    method OnMessage(frame: Frame)
      requires Valid()
      modifies this
      ensures Valid() && State() == Receive(old(State()), frame, host)
    {
      ReceivePreservesConsistent(State(), frame, host);
      match frame {
        case Text(msg) => ReceiveText(msg);
        case Binary(u) => ReceiveBinary(u);
      }
    }
  }

  // ---------------------------------------------------------------------------
  // Properties of single callbacks

  /** A heartbeat is answered with exactly one `"3"` and changes nothing else. */
  lemma HeartbeatRepliesOnce(st: ClientState, host: Host)
    ensures Receive(st, Text("2"), host) == st.(outbox := st.outbox + [PongFrame])
  {
  }

  /** A `40` frame sends the authenticate event only on a connection that has not sent
      it yet, and marks the connection authenticated. */
  lemma NamespaceOpenAuthenticatesOnce(st: ClientState, msg: string, host: Host)
    requires "40" <= msg
    ensures Receive(st, Text(msg), host) ==
              if st.authenticated then st
              else st.(outbox := st.outbox + [AuthFrame(host.token)], authenticated := true)
  {
  }

  /** A `42/tweets` frame sends nothing, dispatches nothing and does not touch the
      authentication flag; it either leaves the keys alone or performs one `Put`. */
  lemma NamespaceEventOnlyTouchesKeys(st: ClientState, msg: string, host: Host)
    requires "42/tweets" <= msg
    ensures var r := Receive(st, Text(msg), host);
      && r.(keys := st.keys) == st
      && (r.keys == st.keys || exists id, key :: r.keys == Put(st.keys, id, key))
  {
  }

  /** A key event whose key decodes and imports stores it under its `key_id` and makes
      that id active; nothing else changes. */
  lemma KeyEventStoresKey(st: ClientState, msg: string, host: Host, parsed: JsValue, event: JsValue,
                          data: JsValue, b64: JsValue, raw: seq<byte>, key: CryptoKey)
    requires ClassifyText(msg).NamespaceEvent?
    requires host.jsonParse(ClassifyText(msg).jsonPart) == Some(parsed)
    requires FirstTwo(parsed) == Some((event, data))
    requires IsKeyEvent(event)
    requires Property(data, "key_b64") == Some(b64)
    requires host.base64ToBytes(b64) == Some(raw) && host.importKey(raw) == Some(key)
    ensures Property(data, "key_id").Some?
    ensures Receive(st, Text(msg), host) == st.(keys := Put(st.keys, Property(data, "key_id").value, key))
  {
  }

  /** A `42/tweets` frame whose JSON does not parse, whose parse is not iterable, or whose
      event is not a key event (`authenticated` included) only logs or is caught: nothing
      changes. */
  lemma NamespaceEventWithoutKeyChangesNothing(st: ClientState, msg: string, host: Host)
    requires ClassifyText(msg).NamespaceEvent?
    requires var p := host.jsonParse(ClassifyText(msg).jsonPart);
      p.None? || FirstTwo(p.value).None? || !IsKeyEvent(FirstTwo(p.value).value.0)
    ensures Receive(st, Text(msg), host) == st
  {
  }

  /** A key event whose `data` is `null` or `undefined`, whose `key_b64` does not decode,
      or whose key does not import is caught: nothing is stored and nothing changes. */
  lemma KeyDecodeFailureChangesNothing(st: ClientState, msg: string, host: Host, parsed: JsValue,
                                       event: JsValue, data: JsValue)
    requires ClassifyText(msg).NamespaceEvent?
    requires host.jsonParse(ClassifyText(msg).jsonPart) == Some(parsed)
    requires FirstTwo(parsed) == Some((event, data))
    requires var b64 := Property(data, "key_b64");
      || b64.None?
      || host.base64ToBytes(b64.value).None?
      || host.importKey(host.base64ToBytes(b64.value).value).None?
    ensures Receive(st, Text(msg), host) == st
  {
  }

  /** A text frame that is neither a heartbeat nor a `40` or `42/tweets` frame changes
      nothing and sends nothing. */
  lemma IgnoredTextChangesNothing(st: ClientState, msg: string, host: Host)
    requires msg != "2" && !("40" <= msg) && !("42/tweets" <= msg)
    ensures Receive(st, Text(msg), host) == st
  {
  }

  /** A binary frame shorter than 29 bytes is dropped before any key lookup or
      decryption, and no event is dispatched. */
  lemma ShortFrameChangesNothing(st: ClientState, u: seq<byte>, host: Host)
    requires |u| < MinFrameLength
    ensures DecodeBinary(st.keys, u, host) == TooShort
    ensures Receive(st, Binary(u), host) == st
  {
  }

  /** A frame for which no key is found is dropped silently. */
  lemma KeylessFrameChangesNothing(st: ClientState, u: seq<byte>, host: Host)
    requires |u| >= MinFrameLength && Lookup(st.keys, FrameKeyId(u[0])).None?
    ensures Receive(st, Binary(u), host) == st
  {
  }

  /** A frame that fails authentication, or whose plaintext is not JSON, is dropped by
      the `catch`: nothing changes. */
  lemma FailedDecodeChangesNothing(st: ClientState, u: seq<byte>, host: Host)
    requires DecodeBinary(st.keys, u, host).Undecryptable? || DecodeBinary(st.keys, u, host).Unparsable?
    ensures Receive(st, Binary(u), host) == st
  {
  }

  /** A decrypted `null` (or `undefined`) makes `handleMessage`'s destructuring throw:
      nothing is dispatched and nothing changes. */
  lemma DecodedNullChangesNothing(st: ClientState, u: seq<byte>, host: Host, v: JsValue)
    requires DecodeBinary(st.keys, u, host) == Decoded(v) && (v.Undefined? || v.Null?)
    ensures Receive(st, Binary(u), host) == st
  {
  }

  /** Any other decrypted value is handed to `handleMessage`: one delivery of its `t` and
      `d` to the handler the switch picks, and one pipeline start with `d` exactly when
      that handler is `tweet_full_update`'s; keys, flag and sent frames stay as they were. */
  lemma DecodedFrameDelivers(st: ClientState, u: seq<byte>, host: Host, v: JsValue)
    requires DecodeBinary(st.keys, u, host) == Decoded(v) && !v.Undefined? && !v.Null?
    ensures var t := Property(v, "t").value;
      var d := Property(v, "d").value;
      var r := Receive(st, Binary(u), host);
      && r.deliveries == st.deliveries + [Delivery(Route(t), t, d)]
      && r.pipelineRuns == (if t == Str("tweet_full_update") then st.pipelineRuns + [d] else st.pipelineRuns)
      && r.keys == st.keys && r.authenticated == st.authenticated && r.outbox == st.outbox
  {
  }

  /** A binary frame changes nothing but the dispatch record: it sends nothing, leaves
      the keys and the flag alone, and dispatches at most one event. */
  lemma BinaryFrameOnlyDispatches(st: ClientState, u: seq<byte>, host: Host)
    ensures var r := Receive(st, Binary(u), host);
      && r.keys == st.keys && r.authenticated == st.authenticated && r.outbox == st.outbox
      && (r.deliveries == st.deliveries || |r.deliveries| == |st.deliveries| + 1)
  {
  }

  /** `open` sends the namespace join and nothing else. */
  lemma OpenSendsJoin(st: ClientState, host: Host)
    ensures Apply(st, Opened, host) == st.(outbox := st.outbox + [JoinFrame])
  {
  }

  /** `close` clears the flag, so the next connection authenticates again, and keeps the
      keys and the active id. */
  lemma CloseKeepsKeys(st: ClientState, host: Host)
    ensures var r := Apply(st, Closed, host);
      && !r.authenticated && r.keys == st.keys && r.outbox == st.outbox
      && r.deliveries == st.deliveries && r.pipelineRuns == st.pipelineRuns
  {
  }

  /** Appending one delivery extends the pipeline payloads by at most its own `d`. */
  lemma PipelinePayloadsAppend(ds: seq<Delivery>, x: Delivery)
    ensures PipelinePayloads(ds + [x]) ==
              PipelinePayloads(ds) + (if RunsPipeline(x.handler) then [x.d] else [])
  {
    assert (ds + [x])[..|ds|] == ds;
  }

  /** Every message keeps the state consistent. */
  lemma ReceivePreservesConsistent(st: ClientState, frame: Frame, host: Host)
    requires Consistent(st)
    ensures Consistent(Receive(st, frame, host))
  {
    match frame
    case Text(msg) =>
    case Binary(u) =>
      var o := DecodeBinary(st.keys, u, host);
      if o.Decoded? && !(o.value.Undefined? || o.value.Null?) {
        var t := Property(o.value, "t").value;
        PipelinePayloadsAppend(st.deliveries, Delivery(Route(t), t, Property(o.value, "d").value));
      }
  }

  // ---------------------------------------------------------------------------
  // Properties of sequences of callbacks

  /** The state stays consistent from start-up on, whatever the callbacks. */
  lemma {:induction false} RunPreservesConsistent(st: ClientState, es: seq<SocketEvent>, host: Host)
    requires Consistent(st)
    ensures Consistent(Run(st, es, host))
    decreases |es|
  {
    if es != [] {
      if es[0].Received? {
        ReceivePreservesConsistent(st, es[0].frame, host);
      }
      RunPreservesConsistent(Apply(st, es[0], host), es[1..], host);
    }
  }

  /** Frames once sent stay sent, in order, and the dispatch record only grows. */
  lemma {:induction false} RunOnlyAppends(st: ClientState, es: seq<SocketEvent>, host: Host)
    ensures st.outbox <= Run(st, es, host).outbox
    ensures st.deliveries <= Run(st, es, host).deliveries
    decreases |es|
  {
    if es != [] {
      var next := Apply(st, es[0], host);
      if es[0].Received? && es[0].frame.Text? && "42/tweets" <= es[0].frame.msg {
        NamespaceEventOnlyTouchesKeys(st, es[0].frame.msg, host);
      }
      RunOnlyAppends(next, es[1..], host);
    }
  }

  /** A key id, once stored, is never forgotten, across reconnects too. */
  lemma {:induction false} KeyIdsNeverForgotten(st: ClientState, es: seq<SocketEvent>, host: Host)
    ensures st.keys.keyMap.Keys <= Run(st, es, host).keys.keyMap.Keys
    decreases |es|
  {
    if es != [] {
      var next := Apply(st, es[0], host);
      if es[0].Received? && es[0].frame.Text? && "42/tweets" <= es[0].frame.msg {
        NamespaceEventOnlyTouchesKeys(st, es[0].frame.msg, host);
      }
      assert st.keys.keyMap.Keys <= next.keys.keyMap.Keys;
      KeyIdsNeverForgotten(next, es[1..], host);
    }
  }

  /** Closing and reopening leave the keys exactly as they were, so a frame received
      after a reconnect decrypts as it would have before. */
  lemma {:induction false} ReconnectKeepsKeys(st: ClientState, es: seq<SocketEvent>, host: Host, u: seq<byte>)
    requires forall i :: 0 <= i < |es| ==> !es[i].Received?
    ensures Run(st, es, host).keys == st.keys
    ensures DecodeBinary(Run(st, es, host).keys, u, host) == DecodeBinary(st.keys, u, host)
    decreases |es|
  {
    if es != [] {
      ReconnectKeepsKeys(Apply(st, es[0], host), es[1..], host, u);
    }
  }

  /** How `Count` unfolds at the back. */
  lemma CountAppend(s: seq<string>, y: string, x: string)
    ensures Count(s + [y], x) == Count(s, x) + (if y == x then 1 else 0)
  {
    assert (s + [y])[..|s|] == s;
  }

  /** Authenticate events already sent plus the one still allowed on this connection. */
  function AuthBudget(st: ClientState, token: string): nat
  {
    Count(st.outbox, AuthFrame(token)) + (if st.authenticated then 0 else 1)
  }

  /** No callback other than `close` changes the budget: sending an authenticate event
      uses up the connection's allowance. */
  lemma StepKeepsAuthBudget(st: ClientState, e: SocketEvent, host: Host)
    requires !e.Closed?
    ensures AuthBudget(Apply(st, e, host), host.token) == AuthBudget(st, host.token)
  {
    var a := AuthFrame(host.token);
    match e
    case Opened =>
      CountAppend(st.outbox, JoinFrame, a);
    case Received(Binary(u)) =>
    case Received(Text(msg)) =>
      if msg == "2" {
        CountAppend(st.outbox, PongFrame, a);
      } else if "40" <= msg {
        CountAppend(st.outbox, a, a);
      } else if "42/tweets" <= msg {
        NamespaceEventOnlyTouchesKeys(st, msg, host);
      }
  }

  /** Over callbacks without `close`, the budget stays what it was. */
  lemma {:induction false} RunKeepsAuthBudget(st: ClientState, es: seq<SocketEvent>, host: Host)
    requires forall i :: 0 <= i < |es| ==> !es[i].Closed?
    ensures AuthBudget(Run(st, es, host), host.token) == AuthBudget(st, host.token)
    decreases |es|
  {
    if es != [] {
      var next := Apply(st, es[0], host);
      StepKeepsAuthBudget(st, es[0], host);
      assert Run(st, es, host) == Run(next, es[1..], host);
      RunKeepsAuthBudget(next, es[1..], host);
    }
  }

  /** Between two `close` callbacks at most one authenticate event is sent, and none at
      all when the connection has already sent one. */
  lemma {:induction false} AuthenticateAtMostOncePerConnection(st: ClientState, es: seq<SocketEvent>, host: Host)
    requires forall i :: 0 <= i < |es| ==> !es[i].Closed?
    ensures Count(Run(st, es, host).outbox, AuthFrame(host.token))
            <= Count(st.outbox, AuthFrame(host.token)) + (if st.authenticated then 0 else 1)
    decreases |es|
  {
    RunKeepsAuthBudget(st, es, host);
  }

  /** A well-formed frame whose key is found is decrypted with its own IV over its
      ciphertext followed by its tag, and a plaintext that parses is handed on. */
  lemma DecodeSealedFrame(ks: KeyStore, f: EncryptedFrame, key: CryptoKey, plain: seq<byte>,
                          v: JsValue, host: Host)
    requires f.WellFormed() && Lookup(ks, FrameKeyId(f.keyId)) == Some(key)
    requires host.decrypt(key, f.iv, f.ciphertext + f.tag) == Some(plain)
    requires host.jsonParse(host.utf8Decode(plain)) == Some(v)
    ensures DecodeBinary(ks, Join(f), host) == Decoded(v)
  {
    SplitJoin(f);
    FlattenPair(f.ciphertext, f.tag);
  }

  /** The four callbacks of the end-to-end scenario, one at a time. */
  lemma RunFour(st: ClientState, e0: SocketEvent, e1: SocketEvent, e2: SocketEvent, e3: SocketEvent, host: Host)
    ensures Run(st, [e0, e1, e2, e3], host)
            == Apply(Apply(Apply(Apply(st, e0, host), e1, host), e2, host), e3, host)
  {
    var s1 := Apply(st, e0, host);
    var s2 := Apply(s1, e1, host);
    var s3 := Apply(s2, e2, host);
    assert [e0, e1, e2, e3][1..] == [e1, e2, e3];
    assert [e1, e2, e3][1..] == [e2, e3];
    assert [e2, e3][1..] == [e3];
    assert Run(s3, [e3], host) == Run(Apply(s3, e3, host), [], host);
    assert Run(s2, [e2, e3], host) == Run(s3, [e3], host);
    assert Run(s1, [e1, e2, e3], host) == Run(s2, [e2, e3], host);
  }

  /** End to end: a key broadcast, a disconnect and a reconnect, then a frame sealed
      under that key with its id: the decrypted event reaches `handleMessage`, with no
      further key event. */
  lemma KeyBroadcastThenFrameAcrossReconnect(
    st: ClientState, host: Host, msg: string, b64: JsValue, raw: seq<byte>, key: CryptoKey,
    f: EncryptedFrame, plain: seq<byte>, t: JsValue, d: JsValue)
    requires ClassifyText(msg).NamespaceEvent?
    requires host.jsonParse(ClassifyText(msg).jsonPart) ==
               Some(Array([Str("crypto:broadcast_key"),
                           Object(map["key_id" := FrameKeyId(f.keyId), "key_b64" := b64])]))
    requires host.base64ToBytes(b64) == Some(raw) && host.importKey(raw) == Some(key)
    requires f.WellFormed()
    requires host.decrypt(key, f.iv, f.ciphertext + f.tag) == Some(plain)
    requires host.jsonParse(host.utf8Decode(plain)) == Some(Object(map["t" := t, "d" := d]))
    ensures Run(st, [Received(Text(msg)), Closed, Opened, Received(Binary(Join(f)))], host).deliveries
            == st.deliveries + [Delivery(Route(t), t, d)]
  {
    var data := Object(map["key_id" := FrameKeyId(f.keyId), "key_b64" := b64]);
    assert Property(data, "key_b64") == Some(b64);
    assert Property(data, "key_id") == Some(FrameKeyId(f.keyId));
    var parsed := Array([Str("crypto:broadcast_key"), data]);
    assert FirstTwo(parsed) == Some((Str("crypto:broadcast_key"), data));
    KeyEventStoresKey(st, msg, host, parsed, Str("crypto:broadcast_key"), data, b64, raw, key);
    var s1 := Apply(st, Received(Text(msg)), host);
    var s3 := Apply(Apply(s1, Closed, host), Opened, host);
    assert s3.keys == Put(st.keys, FrameKeyId(f.keyId), key);
    var v := Object(map["t" := t, "d" := d]);
    DecodeSealedFrame(s3.keys, f, key, plain, v, host);
    assert Property(v, "t") == Some(t) && Property(v, "d") == Some(d);
    DecodedFrameDelivers(s3, Join(f), host, v);
    RunFour(st, Received(Text(msg)), Closed, Opened, Received(Binary(Join(f))), host);
  }
}
