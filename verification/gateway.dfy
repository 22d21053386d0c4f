/**
 The client's single gateway to the API: every call sends its parameters with
 the module name and the reseller's API key, and every reply is sorted into
 exactly one outcome. The HTTP exchange itself is not modelled; a reply is
 what the transport hands back.
 */
module Gateway {
  import opened Optional
  import opened Text
  import opened Normalize
  import opened Objects
  import opened Messages

  /**
   The parameters actually sent: the caller's, with `module` and `api_key`
   assigned last, so they override whatever the caller put there.
   */
  function Outgoing(apiKey: string, moduleName: string, data: Object<string>): (r: Object<string>)
    ensures Get(r, "module") == Some(moduleName)
    ensures Get(r, "api_key") == Some(apiKey)
    ensures forall k :: k != "module" && k != "api_key" ==> Get(r, k) == Get(data, k)
    ensures DistinctKeys(data) ==> DistinctKeys(r)
    ensures !HasKey(data, "module") && !HasKey(data, "api_key") ==>
      r == data + [("module", moduleName), ("api_key", apiKey)]
  {
    var d := Set(data, "module", moduleName);
    var r := Set(d, "api_key", apiKey);
    assert Get(r, "module") == Get(d, "module");
    assert !HasKey(data, "module") && !HasKey(data, "api_key") ==>
      r == data + [("module", moduleName), ("api_key", apiKey)] by {
      if !HasKey(data, "module") && !HasKey(data, "api_key") {
        assert Get(d, "api_key") == Get(data, "api_key");
        AppendTwo(data, ("module", moduleName), ("api_key", apiKey));
      }
    }
    assert DistinctKeys(data) ==> DistinctKeys(r) by {
      if DistinctKeys(data) {
        SetDistinct(data, "module", moduleName);
        SetDistinct(d, "api_key", apiKey);
      }
    }
    r
  }

  lemma {:induction false} AppendTwo<T>(s: seq<T>, a: T, b: T)
    ensures s + [a] + [b] == s + [a, b]
  {
  }

  /** A decoded reply body as far as the client looks into it; other fields pass through. */
  datatype RawBody = RawBody(success: Option<string>, result: Option<string>, fields: Object<string>)

  /** `success` after the client's pass: missing, the empty string left alone, or parsed. */
  datatype Flag = Missing | Blank | Parsed(value: bool)

  /** A reply body after the client's pass. */
  datatype Body = Body(success: Flag, result: Option<string>, fields: Object<string>)

  /** What the transport hands back: an error, or a status code and a body (`None` for `null`). */
  datatype Reply = TransportError(cause: string) | Completed(status: int, body: Option<RawBody>)

  /** The one outcome a call reports. */
  datatype Outcome =
    | RequestFailed(cause: string)
    | BadResponse(code: int, received: Option<RawBody>)
    | BadModule
    | BadApiKey
    | Delivered(body: Body)

  /**
   The client's pass over a 200 reply's body: a non-empty `result` is
   normalised and a non-empty `success` is read with `parseBoolean`; empty or
   missing ones are left as they are.
   */
  function NormalizeBody(raw: RawBody): (b: Body)
    ensures b.fields == raw.fields
    ensures b.result.Some? <==> raw.result.Some?
    ensures b.result.Some? ==> b.result.value == NormalizeResult(raw.result.value) && IsNormalized(b.result.value)
    ensures b.success.Missing? <==> raw.success.None?
    ensures b.success.Blank? <==> raw.success == Some([])
    ensures b.success.Parsed? ==> (b.success.value <==> ToLower(raw.success.value) != "false")
  {
    var result :=
      match raw.result
      case Some(r) => if r == [] then raw.result else Some(NormalizeResult(r))
      case None => None;
    var success :=
      match raw.success
      case None => Missing
      case Some(s) => if s == [] then Blank else Parsed(ParseBoolean(s));
    assert NormalizeResult([]) == [] by {
      NormalizeResultFixpoint([]);
    }
    Body(success, result, raw.fields)
  }

  /** A reply the client goes on to inspect: status 200 with a non-null body. */
  predicate Accepted(reply: Reply) {
    reply.Completed? && reply.status == 200 && reply.body.Some?
  }

  /** The normalised `result` message of an accepted reply. */
  function Message(reply: Reply): Option<string>
    requires Accepted(reply)
  {
    match reply.body.value.result
    case None => None
    case Some(r) => Some(NormalizeResult(r))
  }

  predicate IsKeySentinel(m: Option<string>) {
    m == Some(InvalidKeySentinel) || m == Some(MissingKeySentinel)
  }

  /**
   The decision the client makes on a reply: transport errors first, then
   anything but a 200 with a body, then the sentinel messages, compared
   exactly after normalisation; everything else is delivered.
   */
  function Classify(reply: Reply): (o: Outcome)
    ensures o.RequestFailed? <==> reply.TransportError?
    ensures o.RequestFailed? ==> o.cause == reply.cause
    ensures o.BadResponse? <==> reply.Completed? && !Accepted(reply)
    ensures o.BadResponse? ==> o.code == reply.status && o.received == reply.body
    ensures o.BadModule? <==> Accepted(reply) && Message(reply) == Some(ModuleSentinel)
    ensures o.BadApiKey? <==> Accepted(reply) && IsKeySentinel(Message(reply))
    ensures o.Delivered? ==> Accepted(reply) && o.body == NormalizeBody(reply.body.value)
    ensures o.Delivered? ==> Message(reply) != Some(ModuleSentinel) && !IsKeySentinel(Message(reply))
  {
    match reply
    case TransportError(cause) => RequestFailed(cause)
    case Completed(status, body) =>
      if status != 200 || body.None? then BadResponse(status, body)
      else
        var b := NormalizeBody(body.value);
        assert b.result == Message(reply);
        if b.result == Some(ModuleSentinel) then BadModule
        else if IsKeySentinel(b.result) then BadApiKey
        else Delivered(b)
  }

  /** The `type` of the error object the callback receives; none on success. */
  function ErrorType(o: Outcome): (t: Option<string>)
    ensures t.None? <==> o.Delivered?
  {
    match o
    case RequestFailed(_) => Some("request")
    case BadResponse(_, _) => Some("response")
    case BadModule => Some("module")
    case BadApiKey => Some("apikey")
    case Delivered(_) => None
  }

  /** The `message` of the error object; a transport error carries the transport's own error instead. */
  function ErrorMessage(o: Outcome): (m: Option<string>)
    ensures m.Some? <==> o.BadResponse? || o.BadModule? || o.BadApiKey?
  {
    match o
    case BadResponse(_, _) => Some("Invalid response received")
    case BadModule => Some("Invalid module requested")
    case BadApiKey => Some("Invalid API Key provided")
    case _ => None
  }

  /** The sentinels are already in normal form. */
  lemma {:induction false} SentinelsNormalized()
    ensures IsNormalized(ModuleSentinel)
    ensures IsNormalized(InvalidKeySentinel)
    ensures IsNormalized(MissingKeySentinel)
  {
    WordsNormalized();
    var middle := "Reseller" + " " + ("Central" + " " + "API");
    JoinNormalized("Central", "API");
    JoinNormalized("Reseller", "Central" + " " + "API");
    JoinNormalized("Invalid", middle);
    JoinNormalized("No", middle);
    var m, k := "Module" + " " + "selected.", "Key" + " " + "provided.";
    JoinNormalized("Module", "selected.");
    JoinNormalized("Key", "provided.");
    JoinNormalized("Invalid" + " " + middle, m);
    JoinNormalized("Invalid" + " " + middle, k);
    JoinNormalized("No" + " " + middle, k);
    SentinelSpelling();
  }

  lemma {:induction false} WordsNormalized()
    ensures IsNormalized("Invalid") && IsNormalized("No") && IsNormalized("Reseller")
    ensures IsNormalized("Central") && IsNormalized("API") && IsNormalized("Module")
    ensures IsNormalized("selected.") && IsNormalized("Key") && IsNormalized("provided.")
  {
    SolidWords();
    SolidMoreWords();
    SolidNormalized("Invalid");
    SolidNormalized("No");
    SolidNormalized("Reseller");
    SolidNormalized("Central");
    SolidNormalized("API");
    SolidNormalized("Module");
    SolidNormalized("selected.");
    SolidNormalized("Key");
    SolidNormalized("provided.");
  }

  lemma {:induction false} SolidWords()
    ensures IsSolid("Invalid") && IsSolid("Reseller") && IsSolid("Central") && IsSolid("API")
  {
  }

  lemma {:induction false} SolidMoreWords()
    ensures IsSolid("Module") && IsSolid("selected.") && IsSolid("Key") && IsSolid("provided.") && IsSolid("No")
  {
  }

  /**
   A sentinel message wrapped in markup, such as
   `<p>No Reseller Central API Key provided.</p>`, is still recognised: the
   comparison happens after normalisation.
   */
  lemma {:induction false} WrappedSentinel(m1: string, m2: string, success: Option<string>, fields: Object<string>, sentinel: string)
    requires '>' !in m1 && '>' !in m2
    requires sentinel == ModuleSentinel || sentinel == InvalidKeySentinel || sentinel == MissingKeySentinel
    ensures var reply := Completed(200, Some(RawBody(success, Some("<" + m1 + ">" + sentinel + "<" + m2 + ">"), fields)));
      Classify(reply) == if sentinel == ModuleSentinel then BadModule else BadApiKey
  {
    SentinelsNormalized();
    NormalizeWrapped(m1, sentinel, m2);
  }

  /** A missing-key message inside a paragraph is an API-key error. */
  lemma {:induction false} ParagraphMissingKey(success: Option<string>, fields: Object<string>)
    ensures Classify(Completed(200, Some(RawBody(success, Some("<p>" + MissingKeySentinel + "</p>"), fields)))) == BadApiKey
  {
    assert "<" + "p" + ">" + MissingKeySentinel + "<" + "/p" + ">" == "<p>" + MissingKeySentinel + "</p>";
    WrappedSentinel("p", "/p", success, fields, MissingKeySentinel);
  }


  /** A plain sentinel, unwrapped, is classified the same way. */
  lemma {:induction false} PlainSentinel(success: Option<string>, fields: Object<string>, sentinel: string)
    requires sentinel == ModuleSentinel || sentinel == InvalidKeySentinel || sentinel == MissingKeySentinel
    ensures var reply := Completed(200, Some(RawBody(success, Some(sentinel), fields)));
      Classify(reply) == if sentinel == ModuleSentinel then BadModule else BadApiKey
  {
    SentinelsNormalized();
    NormalizeResultFixpoint(sentinel);
  }
}
