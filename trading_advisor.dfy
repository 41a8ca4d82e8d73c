/** The LLM trading advisor's normalisation of an untrusted reply into a
    recommendation for one symbol: an action that is always BUY, SELL or
    HOLD and a confidence that is always within [0, 100]. The reply is the
    JSON the endpoint returned; the request itself, the prompt and the
    payload sent are outside the model. Python's `json.dumps` is a
    parameter. */
module TradingAdvisor {
  import opened Common

  datatype Action = Buy | Sell | Hold

  /** The normalised recommendation. The symbol and the reason are whatever
      JSON value the reply supplied for them, or the defaults. */
  datatype Recommendation = Recommendation(symbol: Json, action: Action, confidence: real, reason: Json)

  const NoReason: string := "No reason provided."
  const NoReasoning: string := "No reasoning provided."
  const FallbackReason: string := "LLM endpoint not configured or response could not be parsed."

  function ActionName(a: Action): string {
    match a
    case Buy => "BUY"
    case Sell => "SELL"
    case Hold => "HOLD"
  }

  /** `_get_mock_recommendation`: HOLD with no confidence, for the context's
      symbol. */
  function MockRecommendation(symbol: string): (r: Recommendation)
    ensures r.action == Hold && r.confidence == 0.0 && r.symbol == JStr(symbol)
  {
    Recommendation(JStr(symbol), Hold, 0.0, JStr(FallbackReason))
  }

  // ---------------------------------------------------------------------
  // Actions and confidences from dictionaries
  // ---------------------------------------------------------------------

  /** `x if x in ("BUY", "SELL", "HOLD") else "HOLD"` on `str(v).upper()`.
      Only a string can print as one of the three words: `str` of a number,
      a boolean, `None`, a list or a dict never does. */
  function ActionOf(v: Json): (a: Action)
    ensures v.JStr? && Upper(v.s) == "BUY" <==> a == Buy
    ensures v.JStr? && Upper(v.s) == "SELL" <==> a == Sell
    ensures a == Hold <==> !(v.JStr? && (Upper(v.s) == "BUY" || Upper(v.s) == "SELL"))
  {
    if v.JStr? && Upper(v.s) == "BUY" then Buy
    else if v.JStr? && Upper(v.s) == "SELL" then Sell
    else Hold
  }

  /** `max(0.0, min(100.0, c))`. */
  function Clamp(c: real): (r: real)
    ensures 0.0 <= r <= 100.0
    ensures 0.0 <= c <= 100.0 ==> r == c
    ensures c < 0.0 ==> r == 0.0
    ensures c > 100.0 ==> r == 100.0
  {
    Max(0.0, Min(100.0, c))
  }

  /** `float(d.get("confidence", 0.0))`: 0 when the key is missing; a
      ValueError for text that is not a number and a TypeError for null, a
      list or an object. */
  function ConfidenceOf(fields: Dict<Json>): (r: Result<real>)
    ensures Get(fields, "confidence").None? ==> r == Ok(0.0)
    ensures Get(fields, "confidence").Some? ==>
              (r.Ok? <==> FloatOf(Get(fields, "confidence").value).Some?)
              && (r.Ok? ==> r.value == FloatOf(Get(fields, "confidence").value).value)
    ensures r.Err? ==> r.error == (if Get(fields, "confidence").value.JStr? then "ValueError" else "TypeError")
  {
    match Get(fields, "confidence")
    case None => Ok(0.0)
    case Some(v) =>
      match FloatOf(v)
      case Some(c) => Ok(c)
      case None => Err(if v.JStr? then "ValueError" else "TypeError")
  }

  /** The recommendation one decision dict yields: its action, its clamped
      confidence, its reason (or explanation), and the context's symbol
      unless that is empty. */
  function FromDecision(chosen: Dict<Json>, symbol: string): (r: Result<Recommendation>)
    ensures r.Ok? <==> ConfidenceOf(chosen).Ok?
    ensures r.Ok? ==> r.value.confidence == Clamp(ConfidenceOf(chosen).value)
    ensures r.Ok? ==> r.value.action == ActionOf(Get(chosen, "action").GetOr(JStr("HOLD")))
    ensures r.Ok? && symbol != "" ==> r.value.symbol == JStr(symbol)
  {
    match ConfidenceOf(chosen)
    case Err(e) => Err(e)
    case Ok(c) =>
      Ok(Recommendation(
           if symbol != "" then JStr(symbol) else Get(chosen, "symbol").GetOr(JStr("UNKNOWN")),
           ActionOf(Get(chosen, "action").GetOr(JStr("HOLD"))),
           Clamp(c),
           OrElse(Get(chosen, "reason"), OrElse(Get(chosen, "explanation"), JStr(NoReason)))))
  }

  // ---------------------------------------------------------------------
  // Choosing among decisions (lines 143-153)
  // ---------------------------------------------------------------------

  /** `(d.get("symbol") or "").upper()` for a decision dict; a truthy symbol
      that is not a string has no `upper` and raises. */
  function DecisionSymbol(fields: Dict<Json>): (r: Result<string>)
    ensures r.Ok? <==> OrElse(Get(fields, "symbol"), JStr("")).JStr?
    ensures r.Ok? ==> r.value == Upper(OrElse(Get(fields, "symbol"), JStr("")).s)
  {
    var s := OrElse(Get(fields, "symbol"), JStr(""));
    if s.JStr? then Ok(Upper(s.s)) else Err("AttributeError")
  }

  /** The first dict among `decisions` whose upper-cased symbol is the
      context's; non-dicts are skipped, and an empty context symbol matches
      nothing. */
  function Matching(decisions: seq<Json>, symbol: string): (r: Result<Option<Dict<Json>>>)
    ensures r.Ok? && r.value.Some? ==>
              exists i :: 0 <= i < |decisions| && decisions[i] == JObj(r.value.value)
                          && symbol != "" && DecisionSymbol(r.value.value) == Ok(Upper(symbol))
    ensures r.Ok? && r.value.None? ==>
              symbol == "" || forall i :: 0 <= i < |decisions| && decisions[i].JObj? ==>
                                DecisionSymbol(decisions[i].fields) != Ok(Upper(symbol))
  {
    if decisions == [] then Ok(None)
    else
      var head := decisions[0];
      if head.JObj? && DecisionSymbol(head.fields).Err? then Err(DecisionSymbol(head.fields).error)
      else if head.JObj? && symbol != "" && DecisionSymbol(head.fields) == Ok(Upper(symbol)) then Ok(Some(head.fields))
      else
        var rest := Matching(decisions[1..], symbol);
        assert forall i :: 1 <= i < |decisions| ==> decisions[i] == decisions[1..][i - 1];
        rest
  }

  /** The loop passes over `d` without stopping: `d` is not a dict, or its
      symbol reads and is not the context's. */
  predicate PassedOver(d: Json, symbol: string) {
    !d.JObj? || (DecisionSymbol(d.fields).Ok? && !(symbol != "" && DecisionSymbol(d.fields).value == Upper(symbol)))
  }

  /** The decision chosen is the earliest dict naming the context symbol,
      when every decision before it is passed over. */
  lemma {:induction false} MatchingIsEarliest(decisions: seq<Json>, symbol: string, i: nat)
    requires i < |decisions| && decisions[i].JObj? && symbol != ""
    requires DecisionSymbol(decisions[i].fields) == Ok(Upper(symbol))
    requires forall j :: 0 <= j < i ==> PassedOver(decisions[j], symbol)
    ensures Matching(decisions, symbol) == Ok(Some(decisions[i].fields))
  {
    if i > 0 {
      assert PassedOver(decisions[0], symbol);
      assert forall j :: 0 <= j < i - 1 ==> decisions[1..][j] == decisions[j + 1];
      MatchingIsEarliest(decisions[1..], symbol, i - 1);
    }
  }

  /** A dict whose symbol cannot be upper-cased, reached before any match,
      raises its AttributeError. */
  lemma {:induction false} MatchingStops(decisions: seq<Json>, symbol: string, i: nat)
    requires i < |decisions| && decisions[i].JObj? && DecisionSymbol(decisions[i].fields).Err?
    requires forall j :: 0 <= j < i ==> PassedOver(decisions[j], symbol)
    ensures Matching(decisions, symbol) == Err(DecisionSymbol(decisions[i].fields).error)
  {
    if i > 0 {
      assert PassedOver(decisions[0], symbol);
      assert forall j :: 0 <= j < i - 1 ==> decisions[1..][j] == decisions[j + 1];
      MatchingStops(decisions[1..], symbol, i - 1);
    }
  }

  /** When every decision is passed over, nothing matches. */
  lemma {:induction false} NothingMatches(decisions: seq<Json>, symbol: string)
    requires forall j :: 0 <= j < |decisions| ==> PassedOver(decisions[j], symbol)
    ensures Matching(decisions, symbol) == Ok(None)
  {
    if decisions != [] {
      assert PassedOver(decisions[0], symbol);
      assert forall j :: 0 <= j < |decisions| - 1 ==> decisions[1..][j] == decisions[j + 1];
      NothingMatches(decisions[1..], symbol);
    }
  }

  /** `next((d for d in decisions if isinstance(d, dict)), {})`. */
  function FirstDict(decisions: seq<Json>): (fields: Dict<Json>)
    ensures (forall i :: 0 <= i < |decisions| ==> !decisions[i].JObj?) ==> fields == []
  {
    if decisions == [] then []
    else if decisions[0].JObj? then decisions[0].fields
    else
      assert forall i :: 1 <= i < |decisions| ==> decisions[i] == decisions[1..][i - 1];
      FirstDict(decisions[1..])
  }

  /** The dict `next` yields is the earliest one. */
  lemma {:induction false} FirstDictIsEarliest(decisions: seq<Json>, i: nat)
    requires i < |decisions| && decisions[i].JObj?
    requires forall j :: 0 <= j < i ==> !decisions[j].JObj?
    ensures FirstDict(decisions) == decisions[i].fields
  {
    if i > 0 {
      FirstDictIsEarliest(decisions[1..], i - 1);
    }
  }

  /** The decision the advisor follows: the matching one, else the first
      dict, else the empty dict. */
  function Chosen(decisions: seq<Json>, symbol: string): Result<Dict<Json>> {
    match Matching(decisions, symbol)
    case Err(e) => Err(e)
    case Ok(Some(fields)) => Ok(fields)
    case Ok(None) => Ok(FirstDict(decisions))
  }

  /** The loop over the decisions, with its `break` on the first match. */
  method ChooseDecision(decisions: seq<Json>, symbol: string) returns (r: Result<Dict<Json>>)
    ensures r == Chosen(decisions, symbol)
  {
    var i := 0;
    while i < |decisions|
      invariant i <= |decisions|
      invariant Matching(decisions, symbol) == Matching(decisions[i..], symbol)
    {
      assert decisions[i..][1..] == decisions[i + 1..];
      if decisions[i].JObj? {
        var s := DecisionSymbol(decisions[i].fields);
        if s.Err? {
          return Err(s.error);
        }
        if symbol != "" && s.value == Upper(symbol) {
          return Ok(decisions[i].fields);
        }
      }
      i := i + 1;
    }
    return Ok(FirstDict(decisions));
  }

  // ---------------------------------------------------------------------
  // Prose replies (lines 170-186 and 214-229)
  // ---------------------------------------------------------------------

  /** The keyword rule on the lower-cased text: "buy" without "sell" is BUY,
      "sell" without "buy" is SELL, anything else HOLD. */
  function KeywordAction(text: string): (a: Action)
    ensures a == Buy <==> Contains(Lower(text), "buy") && !Contains(Lower(text), "sell")
    ensures a == Sell <==> Contains(Lower(text), "sell") && !Contains(Lower(text), "buy")
  {
    var lt := Lower(text);
    if Contains(lt, "buy") && !Contains(lt, "sell") then Buy
    else if Contains(lt, "sell") && !Contains(lt, "buy") then Sell
    else Hold
  }

  /** A token that `float` reads as a number within [0, 100]. */
  predicate InRange(token: string) {
    ParseDecimal(token).Some? && 0.0 <= ParseDecimal(token).value <= 100.0
  }

  /** The confidence the token scan settles on: the value of the first
      token within range, or 0 when there is none. */
  function FirstConfidence(tokens: seq<string>): (c: real)
    ensures 0.0 <= c <= 100.0
    ensures (forall i :: 0 <= i < |tokens| ==> !InRange(tokens[i])) ==> c == 0.0
  {
    if tokens == [] then 0.0
    else if InRange(tokens[0]) then ParseDecimal(tokens[0]).value
    else
      assert forall i :: 1 <= i < |tokens| ==> tokens[i] == tokens[1..][i - 1];
      FirstConfidence(tokens[1..])
  }

  /** The scan stops at the earliest token within range. */
  lemma {:induction false} FirstConfidenceIsEarliest(tokens: seq<string>, i: nat)
    requires i < |tokens| && InRange(tokens[i])
    requires forall j :: 0 <= j < i ==> !InRange(tokens[j])
    ensures FirstConfidence(tokens) == ParseDecimal(tokens[i]).value
  {
    if i > 0 {
      FirstConfidenceIsEarliest(tokens[1..], i - 1);
    }
  }

  /** `text.replace("%", " ").split()`. */
  function Tokens(text: string): seq<string> {
    Split(ReplaceChar(text, '%', ' '))
  }

  /** The token loop, with its `break` on the first token within range. */
  method ScanConfidence(text: string) returns (confidence: real)
    ensures confidence == FirstConfidence(Tokens(text))
  {
    var tokens := Tokens(text);
    confidence := 0.0;
    var i := 0;
    while i < |tokens|
      invariant i <= |tokens|
      invariant FirstConfidence(tokens) == FirstConfidence(tokens[i..])
    {
      assert tokens[i..][1..] == tokens[i + 1..];
      var value := ParseDecimal(tokens[i]);
      if value.Some? && 0.0 <= value.value <= 100.0 {
        confidence := value.value;
        return;
      }
      i := i + 1;
    }
  }

  /** The recommendation read from prose: keyword action, token-scan
      confidence, the given reason. */
  function FromText(symbol: string, text: string, reason: Json): (r: Recommendation)
    ensures r.symbol == JStr(symbol) && r.reason == reason
    ensures r.action == KeywordAction(text) && r.confidence == FirstConfidence(Tokens(text))
  {
    Recommendation(JStr(symbol), KeywordAction(text), FirstConfidence(Tokens(text)), reason)
  }

  /** `d.get(key)` is truthy. */
  predicate Given(fields: Dict<Json>, key: string) {
    Get(fields, key).Some? && Truthy(Get(fields, key).value)
  }

  /** The completion text of `choices[0]`: its `text`, else its message's
      `content`, else empty. A falsy first choice reads as `{}`; a choice
      or message that is not a dict, or a text that is not a string, raises
      when it is used. */
  function ChoiceText(first: Json): (r: Result<string>)
    ensures !Truthy(first) ==> r == Ok("")
    ensures Truthy(first) && !first.JObj? ==> r == Err("AttributeError")
    ensures first.JObj? && Given(first.fields, "text") ==>
              var text := Get(first.fields, "text").value;
              (r.Ok? <==> text.JStr?) && (r.Ok? ==> r.value == text.s) &&
              (r.Err? ==> r.error == "AttributeError")
    ensures first.JObj? && !Given(first.fields, "text") && !Given(first.fields, "message") ==> r == Ok("")
    ensures first.JObj? && !Given(first.fields, "text") && Given(first.fields, "message") ==>
              var message := Get(first.fields, "message").value;
              (!message.JObj? ==> r == Err("AttributeError")) &&
              (message.JObj? && !Given(message.fields, "content") ==> r == Ok("")) &&
              (message.JObj? && Given(message.fields, "content") ==>
                 var content := Get(message.fields, "content").value;
                 (r.Ok? <==> content.JStr?) && (r.Ok? ==> r.value == content.s) &&
                 (r.Err? ==> r.error == "AttributeError"))
  {
    var choice := if Truthy(first) then first else JObj([]);
    if !choice.JObj? then Err("AttributeError")
    else
      var text := Get(choice.fields, "text");
      if text.Some? && Truthy(text.value) then
        if text.value.JStr? then Ok(text.value.s) else Err("AttributeError")
      else
        var message := OrElse(Get(choice.fields, "message"), JObj([]));
        if !message.JObj? then Err("AttributeError")
        else
          var content := OrElse(Get(message.fields, "content"), JStr(""));
          if content.JStr? then Ok(content.s) else Err("AttributeError")
  }

  // ---------------------------------------------------------------------
  // `_parse_llm_response`
  // ---------------------------------------------------------------------

  /** A non-empty list under `key`. */
  predicate NonEmptyList(fields: Dict<Json>, key: string) {
    Get(fields, key).Some? && Get(fields, key).value.JArr? && Get(fields, key).value.items != []
  }

  /** Reading 1: the decision endpoint's `{"decisions": [...]}`. */
  function DecisionReading(decisions: seq<Json>, symbol: string): (r: Result<Recommendation>)
    ensures r.Ok? ==> 0.0 <= r.value.confidence <= 100.0
  {
    match Chosen(decisions, symbol)
    case Err(e) => Err(e)
    case Ok(chosen) => FromDecision(chosen, symbol)
  }

  /** Reading 2: an OpenAI-style completion, read as prose; the reason is
      the stripped text. */
  function ChoiceReading(choices: seq<Json>, symbol: string): (r: Result<Recommendation>)
    requires choices != []
    ensures r.Ok? ==> 0.0 <= r.value.confidence <= 100.0
    ensures r.Ok? <==> ChoiceText(choices[0]).Ok?
    ensures r.Err? ==> r.error == ChoiceText(choices[0]).error
    ensures r.Ok? ==>
              var text := ChoiceText(choices[0]).value;
              && r.value.symbol == JStr(symbol)
              && r.value.action == KeywordAction(text)
              && r.value.confidence == FirstConfidence(Tokens(text))
              && r.value.reason == JStr(if Strip(text) != "" then Strip(text) else NoReasoning)
  {
    match ChoiceText(choices[0])
    case Err(e) => Err(e)
    case Ok(text) => Ok(FromText(symbol, text, JStr(if Strip(text) != "" then Strip(text) else NoReasoning)))
  }

  /** Reading 3: a flat dict with an `action` or `recommendation` key. Its
      own truthy symbol wins over the context's. */
  function FlatReading(fields: Dict<Json>, symbol: string): (r: Result<Recommendation>)
    ensures r.Ok? <==> ConfidenceOf(fields).Ok?
    ensures r.Ok? ==> r.value.confidence == Clamp(ConfidenceOf(fields).value)
  {
    match ConfidenceOf(fields)
    case Err(e) => Err(e)
    case Ok(c) =>
      Ok(Recommendation(
           OrElse(Get(fields, "symbol"), JStr(symbol)),
           ActionOf(OrElse(Get(fields, "action"), OrElse(Get(fields, "recommendation"), JStr("HOLD")))),
           Clamp(c),
           OrElse(Get(fields, "reason"), OrElse(Get(fields, "explanation"), JStr(NoReason)))))
  }

  /** Reading 4: anything else, as prose: a string itself, any other value
      as its `json.dumps` text; the reason is the unstripped text. */
  function ProseReading(response: Json, symbol: string, dumps: Json -> string): (r: Recommendation)
    ensures response.JStr? ==> r == FromText(symbol, response.s, JStr(if response.s != "" then response.s else NoReasoning))
  {
    var text := if response.JStr? then response.s else dumps(response);
    FromText(symbol, text, JStr(if text != "" then text else NoReasoning))
  }

  predicate IsDecisionReply(response: Json) {
    response.JObj? && NonEmptyList(response.fields, "decisions")
  }

  predicate IsChoiceReply(response: Json) {
    response.JObj? && NonEmptyList(response.fields, "choices")
  }

  predicate IsFlatReply(response: Json) {
    response.JObj? && ("action" in KeySet(response.fields) || "recommendation" in KeySet(response.fields))
  }

  /** The four readings of the reply, tried in order, or the exception one
      of them raises. */
  function Normalized(response: Json, symbol: string, dumps: Json -> string): (r: Result<Recommendation>)
    ensures r.Ok? ==> 0.0 <= r.value.confidence <= 100.0
    ensures !IsDecisionReply(response) && !IsChoiceReply(response) && !IsFlatReply(response) ==>
              r == Ok(ProseReading(response, symbol, dumps))
  {
    if IsDecisionReply(response) then DecisionReading(Get(response.fields, "decisions").value.items, symbol)
    else if IsChoiceReply(response) then ChoiceReading(Get(response.fields, "choices").value.items, symbol)
    else if IsFlatReply(response) then FlatReading(response.fields, symbol)
    else Ok(ProseReading(response, symbol, dumps))
  }

  /** `_parse_llm_response`: the normalised reply, or the safe HOLD when
      reading it raised. */
  function ParseLlmResponse(response: Json, symbol: string, dumps: Json -> string): (r: Recommendation)
    ensures 0.0 <= r.confidence <= 100.0
    ensures Normalized(response, symbol, dumps).Err? ==> r == MockRecommendation(symbol)
    ensures Normalized(response, symbol, dumps).Ok? ==> r == Normalized(response, symbol, dumps).value
  {
    match Normalized(response, symbol, dumps)
    case Ok(rec) => rec
    case Err(_) => MockRecommendation(symbol)
  }

  /** `get_trading_recommendation`: without an endpoint, or when the query
      raises, the safe HOLD; otherwise the parsed reply. `reply` is the
      decoded JSON the endpoint answered, or the exception the query
      raised. */
  function TradingRecommendation(endpoint: Option<string>, reply: Result<Json>, symbol: string,
                                 dumps: Json -> string): (r: Recommendation)
    ensures 0.0 <= r.confidence <= 100.0
    ensures endpoint.None? || endpoint.value == "" || reply.Err? ==> r == MockRecommendation(symbol)
    ensures endpoint.Some? && endpoint.value != "" && reply.Ok? ==> r == ParseLlmResponse(reply.value, symbol, dumps)
  {
    if endpoint.None? || endpoint.value == "" then MockRecommendation(symbol)
    else if reply.Err? then MockRecommendation(symbol)
    else ParseLlmResponse(reply.value, symbol, dumps)
  }

  // ---------------------------------------------------------------------
  // Properties across the readings
  // ---------------------------------------------------------------------

  /** A recommendation in the advisor's own output shape, as dict entries. */
  function RecordFields(r: Recommendation): Dict<Json> {
    [("symbol", r.symbol), ("action", JStr(ActionName(r.action))),
     ("confidence", JNum(r.confidence)), ("reason", r.reason)]
  }

  /** What a canonical recommendation is: a truthy symbol and reason and a
      confidence already within range. */
  predicate Canonical(r: Recommendation) {
    Truthy(r.symbol) && Truthy(r.reason) && 0.0 <= r.confidence <= 100.0
  }

  lemma RecordFieldsRead(r: Recommendation)
    ensures Get(RecordFields(r), "symbol") == Some(r.symbol)
    ensures Get(RecordFields(r), "action") == Some(JStr(ActionName(r.action)))
    ensures Get(RecordFields(r), "confidence") == Some(JNum(r.confidence))
    ensures Get(RecordFields(r), "reason") == Some(r.reason)
    ensures Get(RecordFields(r), "decisions").None? && Get(RecordFields(r), "choices").None?
  {
    var fs := RecordFields(r);
    IndexOfUnique(fs, "symbol", 0);
    IndexOfUnique(fs, "action", 1);
    IndexOfUnique(fs, "confidence", 2);
    IndexOfUnique(fs, "reason", 3);
    IndexOfUnique(fs, "decisions", 4);
    IndexOfUnique(fs, "choices", 4);
  }

  /** Every action name reads back as its action. */
  lemma ActionNameRead(a: Action)
    ensures ActionOf(JStr(ActionName(a))) == a
  {
    UpperIdempotent(ActionName(a));
    assert Upper(ActionName(a)) == ActionName(a);
  }

  /** The flat reading of a canonical recommendation's own fields. */
  lemma FlatRoundTrip(r: Recommendation, symbol: string)
    requires Canonical(r)
    ensures FlatReading(RecordFields(r), symbol) == Ok(r)
  {
    var fs := RecordFields(r);
    RecordFieldsRead(r);
    ActionNameRead(r.action);
    assert ConfidenceOf(fs) == Ok(r.confidence);
    assert OrElse(Get(fs, "symbol"), JStr(symbol)) == r.symbol;
    assert OrElse(Get(fs, "reason"), OrElse(Get(fs, "explanation"), JStr(NoReason))) == r.reason;
    assert OrElse(Get(fs, "action"), OrElse(Get(fs, "recommendation"), JStr("HOLD"))) == JStr(ActionName(r.action));
    assert Clamp(r.confidence) == r.confidence;
  }

  /** A canonical recommendation sent back as a flat dict is read back
      unchanged, whatever the context's symbol. */
  lemma CanonicalRoundTrip(r: Recommendation, symbol: string, dumps: Json -> string)
    requires Canonical(r)
    ensures ParseLlmResponse(JObj(RecordFields(r)), symbol, dumps) == r
  {
    RecordFieldsRead(r);
    FlatRoundTrip(r, symbol);
    assert !IsDecisionReply(JObj(RecordFields(r))) && !IsChoiceReply(JObj(RecordFields(r)));
    assert IsFlatReply(JObj(RecordFields(r)));
  }

  /** With a non-empty context symbol every normalised recommendation is
      canonical: its symbol and reason are truthy and its confidence is in
      [0, 100]. */
  lemma ParsedIsCanonical(response: Json, symbol: string, dumps: Json -> string)
    requires symbol != ""
    ensures Canonical(ParseLlmResponse(response, symbol, dumps))
  {
    assert Truthy(JStr(symbol)) && Truthy(JStr(NoReason)) && Truthy(JStr(NoReasoning));
    var r := Normalized(response, symbol, dumps);
    if r.Err? {
      assert Truthy(JStr(FallbackReason));
    } else if IsDecisionReply(response) {
      assert r == DecisionReading(Get(response.fields, "decisions").value.items, symbol);
    } else if IsChoiceReply(response) {
      var choices := Get(response.fields, "choices").value.items;
      assert r == ChoiceReading(choices, symbol);
      var text := ChoiceText(choices[0]).value;
      assert Truthy(JStr(if Strip(text) != "" then Strip(text) else NoReasoning));
    } else if IsFlatReply(response) {
      assert r == FlatReading(response.fields, symbol);
    } else {
      assert r == Ok(ProseReading(response, symbol, dumps));
    }
  }

  /** Normalising is idempotent for a non-empty context symbol: the
      recommendation, sent back as a reply, is read as itself. */
  lemma ParseIdempotent(response: Json, symbol: string, dumps: Json -> string)
    requires symbol != ""
    ensures var r := ParseLlmResponse(response, symbol, dumps);
            ParseLlmResponse(JObj(RecordFields(r)), symbol, dumps) == r
  {
    ParsedIsCanonical(response, symbol, dumps);
    CanonicalRoundTrip(ParseLlmResponse(response, symbol, dumps), symbol, dumps);
  }

  /** "high" is not a number `float` reads, so a decision with
      `"confidence": "high"` is one `UnreadableConfidenceFallsBack` covers. */
  lemma HighIsNotANumber()
    ensures FloatOf(JStr("high")).None?
  {
    var h := "high";
    assert h[0] == 'h' && h[3] == 'h' && !IsSpace('h') && !IsDigit('h');
    assert StripLeft(h) == h;
    assert StripRight(h) == h;
    assert !AllDigits(h[..IndexOfChar(h, '.')]) by {
      assert IndexOfChar(h, '.') > 0;
      assert h[..IndexOfChar(h, '.')][0] == 'h';
    }
    assert ParseUnsigned(h).None?;
  }

  /** A decision whose confidence `float` cannot read makes the whole reply
      fall back to the safe HOLD. */
  lemma UnreadableConfidenceFallsBack(decision: Dict<Json>, symbol: string, dumps: Json -> string)
    requires Get(decision, "confidence").Some? && FloatOf(Get(decision, "confidence").value).None?
    requires DecisionSymbol(decision).Ok?
    ensures ParseLlmResponse(JObj([("decisions", JArr([JObj(decision)]))]), symbol, dumps)
            == MockRecommendation(symbol)
  {
    var decisions := [JObj(decision)];
    IndexOfUnique([("decisions", JArr(decisions))], "decisions", 0);
    assert FromDecision(decision, symbol).Err?;
    assert Chosen(decisions, symbol) == Ok(decision) by {
      assert decisions[1..] == [];
      assert Matching(decisions[1..], symbol) == Ok(None);
      assert FirstDict(decisions) == decision;
    }
    assert DecisionReading(decisions, symbol).Err?;
    assert IsDecisionReply(JObj([("decisions", JArr(decisions))]));
  }

  /** A decision for the context's symbol is preferred to an earlier one
      for another symbol. */
  lemma MatchingDecisionPreferred(other: Dict<Json>, mine: Dict<Json>, symbol: string)
    requires symbol != ""
    requires DecisionSymbol(other).Ok? && DecisionSymbol(other) != Ok(Upper(symbol))
    requires DecisionSymbol(mine) == Ok(Upper(symbol))
    ensures Chosen([JObj(other), JObj(mine)], symbol) == Ok(mine)
  {
    var ds := [JObj(other), JObj(mine)];
    assert ds[1..] == [JObj(mine)];
    assert Matching(ds[1..], symbol) == Ok(Some(mine));
    assert Matching(ds, symbol) == Matching(ds[1..], symbol);
  }

  /** Without a decision for the context's symbol, the first dict is
      followed and entries that are not dicts are passed over. */
  lemma FirstDictWhenNoMatch(mine: Dict<Json>, symbol: string)
    requires DecisionSymbol(mine).Ok? && (symbol == "" || DecisionSymbol(mine) != Ok(Upper(symbol)))
    ensures Chosen([JNum(1.0), JObj(mine)], symbol) == Ok(mine)
  {
    var ds := [JNum(1.0), JObj(mine)];
    assert ds[1..] == [JObj(mine)];
    assert [JObj(mine)][1..] == [];
    assert Matching([JObj(mine)], symbol) == Ok(None);
    assert Matching(ds, symbol) == Ok(None);
    assert FirstDict(ds[1..]) == mine;
  }
}
