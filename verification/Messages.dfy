/** Requests on the executor's wire (control_plane/executor_ipc.py): parsing,
    printing and telling them apart.  JSON text is a finite tree of values. */
module Messages {
  import opened Types

  /** Names of JSON members: those the protocol knows, and all others. */
  datatype Name =
    | ActionIdName | CapabilityIdName | TargetIdName | ContractDigestName | LeaseIdName | FencingTokenName
    | ActionProtocolName | PlanDigestName | ConfirmationIdName | ServiceScopeName | RegistrationIdName
    | RegistrationDigestName | MessageTypeName | OtherName(text: string)

  datatype Json =
    | JNull | JBool(b: bool) | JInt(i: int) | JFloat(r: real) | JString(s: string)
    | JList(items: seq<Json>) | JObject(fields: map<Name, Json>)

  type Fields = map<Name, Json>

  const MAX_FIELDS: nat := 16
  const MAX_SERVICE_NAME: nat := 64
  const MAX_REGISTRATION_ID: nat := 128
  const QUERY_MESSAGE_TYPE := "query_mutation_receipt"
  const EXECUTE_UPDATE_PLAN := "execute_update_plan"
  const EXECUTE_SERVICE_UPDATE := "execute_service_update"
  const REQUIRED: set<Name> :=
    {ActionIdName, CapabilityIdName, TargetIdName, ContractDigestName, LeaseIdName, FencingTokenName,
     ActionProtocolName}

  predicate IsHex(s: string, n: nat) {
    |s| == n && forall i :: 0 <= i < |s| ==> '0' <= s[i] <= '9' || 'a' <= s[i] <= 'f'
  }

  // ----- service scope ---------------------------------------------------------------

  predicate Alphanumeric(c: char) { '0' <= c <= '9' || 'a' <= c <= 'z' || 'A' <= c <= 'Z' }

  /** The canonical pattern; it leaves no room for the dashes in front, blanks,
      separators and shell characters that are also refused one by one. */
  predicate CanonicalName(s: string) {
    && 0 < |s| <= MAX_SERVICE_NAME && Alphanumeric(s[0])
    && forall i :: 0 <= i < |s| ==> Alphanumeric(s[i]) || s[i] == '_' || s[i] == '.' || s[i] == '-'
  }

  predicate Forbidden(c: char) { c in ";&|$`><\n\r\t\0'\"/\\:@ " }

  /** A scope is a non-empty list of canonical names without repetition. */
  predicate ScopeOk(names: seq<string>) {
    && names != [] && (forall i :: 0 <= i < |names| ==> CanonicalName(names[i]))
    && (forall i, j :: 0 <= i < j < |names| ==> names[i] != names[j])
  }

  function Names(items: seq<Json>): (names: Option<seq<string>>)
    ensures names.Some? <==> forall i :: 0 <= i < |items| ==> items[i].JString?
    ensures names.Some? ==>
              |names.value| == |items| && forall i :: 0 <= i < |items| ==> items[i] == JString(names.value[i])
  {
    if items == [] then Some([]) else
    var last, before := items[|items| - 1], Names(items[..|items| - 1]);
    if last.JString? && before.Some? then Some(before.value + [last.s]) else None
  }

  /** The scope a JSON value stands for, if it stands for one. */
  function ScopeOf(scope: Json): (r: Result<seq<string>>)
    ensures r.Ok? ==> ScopeOk(r.value)
  {
    if scope.JList? && Names(scope.items).Some? && ScopeOk(Names(scope.items).value)
    then Ok(Names(scope.items).value) else Err(InvalidRequest)
  }

  /** An item that cannot be part of any scope spoils the whole list. */
  lemma BadItem(scope: Json, i: nat)
    requires scope.JList? && i < |scope.items|
    requires !scope.items[i].JString? || !CanonicalName(scope.items[i].s)
             || exists j :: 0 <= j < i && scope.items[j] == scope.items[i]
    ensures ScopeOf(scope).Err?
  {
    var names := Names(scope.items);
    if names.Some? { assert scope.items[i] == JString(names.value[i]); }
  }

  lemma GoodItems(scope: Json, names: seq<string>)
    requires scope.JList? && |names| == |scope.items| && ScopeOk(names)
    requires forall i :: 0 <= i < |names| ==> scope.items[i] == JString(names[i])
    ensures ScopeOf(scope) == Ok(names)
  {
    assert Names(scope.items).value == names;
  }

  lemma ForbiddenIsNotCanonical(s: string)
    requires exists k :: 0 <= k < |s| && Forbidden(s[k])
    ensures !CanonicalName(s)
  {
  }

  /** `validate_service_scope`: accepts exactly the good scopes and returns them
      unchanged, in their order. */
  method ValidateServiceScope(scope: Json) returns (r: Result<seq<string>>)
    ensures r == ScopeOf(scope)
  {
    if !scope.JList? || scope.items == [] { return Err(InvalidRequest); }
    var seen: set<string> := {};
    var cleaned: seq<string> := [];
    var i := 0;
    while i < |scope.items|
      invariant 0 <= i <= |scope.items| && |cleaned| == i
      invariant forall j :: 0 <= j < i ==> scope.items[j] == JString(cleaned[j])
      invariant forall s :: s in seen <==> s in cleaned
      invariant cleaned == [] || ScopeOk(cleaned)
    {
      var item := scope.items[i];
      var bad := !item.JString? || item.s == "" || item.s[0] == '-'
                 || (exists k :: 0 <= k < |item.s| && Forbidden(item.s[k])) || !CanonicalName(item.s);
      if bad {
        if item.JString? && exists k :: 0 <= k < |item.s| && Forbidden(item.s[k]) { ForbiddenIsNotCanonical(item.s); }
        BadItem(scope, i);
        return Err(InvalidRequest);
      }
      if item.s in seen {
        assert exists j :: 0 <= j < i && scope.items[j] == item by {
          var j :| 0 <= j < i && cleaned[j] == item.s;
          assert scope.items[j] == item;
        }
        BadItem(scope, i);
        return Err(InvalidRequest);
      }
      seen, cleaned := seen + {item.s}, cleaned + [item.s];
      i := i + 1;
    }
    GoodItems(scope, cleaned);
    r := Ok(cleaned);
  }

  // ----- execution requests --------------------------------------------------------------

  /** The capability and the target are passed on as they came. */
  datatype ExecutionRequest = ExecutionRequest(
    actionId: string, capability: Json, target: Json, contractDigest: string, leaseId: string,
    fencingToken: int, protocol: string,
    planDigest: Option<string>, confirmationId: Option<string>, scope: Option<seq<string>>,
    registrationId: Option<string>, registrationDigest: Option<string>)

  /** A missing member and a null one are the same. */
  function Member(f: Fields, n: Name): Json { if n in f then f[n] else JNull }

  function Text(v: Json): Option<string> { if v.JString? then Some(v.s) else None }

  predicate NonEmpty(v: Json) { v.JString? && v.s != "" }

  predicate OptionalHex(v: Json, size: nat) { v.JNull? || (v.JString? && IsHex(v.s, size)) }

  predicate KnownProtocol(v: Json) { v.JString? && (v.s == "legacy-v1" || v.s == "mc616d2-v1") }

  predicate EngineCapability(v: Json) { v == JString(EXECUTE_UPDATE_PLAN) || v == JString(EXECUTE_SERVICE_UPDATE) }

  /** Every check of `from_json` on the members of the object. */
  predicate Acceptable(f: Fields) {
    && REQUIRED <= f.Keys && |f| <= MAX_FIELDS
    && (EngineCapability(f[CapabilityIdName]) ==>
          NonEmpty(Member(f, PlanDigestName)) && NonEmpty(Member(f, ConfirmationIdName)))
    && (f[CapabilityIdName] == JString(EXECUTE_SERVICE_UPDATE) ==> !Member(f, ServiceScopeName).JNull?)
    && OptionalHex(Member(f, PlanDigestName), 64) && OptionalHex(Member(f, ConfirmationIdName), 32)
    && OptionalHex(Member(f, RegistrationDigestName), 64)
    && (Member(f, RegistrationIdName).JNull?
        || (NonEmpty(Member(f, RegistrationIdName)) && |Member(f, RegistrationIdName).s| <= MAX_REGISTRATION_ID))
    && (Member(f, ServiceScopeName).JNull? || ScopeOf(Member(f, ServiceScopeName)).Ok?)
    && NonEmpty(f[ActionIdName]) && NonEmpty(f[ContractDigestName]) && NonEmpty(f[LeaseIdName])
    && f[FencingTokenName].JInt? && KnownProtocol(f[ActionProtocolName])
  }

  function ParseExecution(p: Json): Result<ExecutionRequest> {
    if !p.JObject? || !Acceptable(p.fields) then Err(InvalidRequest) else
    var f := p.fields;
    Ok(ExecutionRequest(
         f[ActionIdName].s, f[CapabilityIdName], f[TargetIdName], f[ContractDigestName].s, f[LeaseIdName].s,
         f[FencingTokenName].i, f[ActionProtocolName].s,
         Text(Member(f, PlanDigestName)), Text(Member(f, ConfirmationIdName)),
         if Member(f, ServiceScopeName).JNull? then None else Some(ScopeOf(Member(f, ServiceScopeName)).value),
         Text(Member(f, RegistrationIdName)), Text(Member(f, RegistrationDigestName))))
  }

  function Add(f: Fields, n: Name, v: Option<Json>): Fields { if v.Some? then f[n := v.value] else f }

  function Quote(v: Option<string>): Option<Json> { if v.Some? then Some(JString(v.value)) else None }

  function Quoted(names: seq<string>): seq<Json> { seq(|names|, i requires 0 <= i < |names| => JString(names[i])) }

  /** The members every printed request has. */
  function Base(r: ExecutionRequest): Fields {
    map[ActionIdName := JString(r.actionId), CapabilityIdName := r.capability, TargetIdName := r.target,
        ContractDigestName := JString(r.contractDigest), LeaseIdName := JString(r.leaseId),
        FencingTokenName := JInt(r.fencingToken), ActionProtocolName := JString(r.protocol)]
  }

  function WithOptions(f: Fields, r: ExecutionRequest): Fields {
    var scope := if r.scope.Some? then Some(JList(Quoted(r.scope.value))) else None;
    Add(Add(Add(Add(Add(f, PlanDigestName, Quote(r.planDigest)), ConfirmationIdName, Quote(r.confirmationId)),
                ServiceScopeName, scope),
            RegistrationIdName, Quote(r.registrationId)),
        RegistrationDigestName, Quote(r.registrationDigest))
  }

  function PrintExecution(r: ExecutionRequest): Json { JObject(WithOptions(Base(r), r)) }

  /** Optional members do not touch the required ones. */
  lemma OptionsKeep(f: Fields, r: ExecutionRequest, n: Name)
    requires n in REQUIRED && n in f
    ensures n in WithOptions(f, r) && WithOptions(f, r)[n] == f[n]
  {
  }

  /** Printing then reading each required member. */
  lemma PrintedRequired(r: ExecutionRequest)
    ensures var f := PrintExecution(r).fields;
            && REQUIRED <= f.Keys
            && f[ActionIdName] == JString(r.actionId) && f[CapabilityIdName] == r.capability
            && f[TargetIdName] == r.target
            && f[ContractDigestName] == JString(r.contractDigest) && f[LeaseIdName] == JString(r.leaseId)
            && f[FencingTokenName] == JInt(r.fencingToken) && f[ActionProtocolName] == JString(r.protocol)
  {
    forall n | n in REQUIRED ensures n in WithOptions(Base(r), r) && WithOptions(Base(r), r)[n] == Base(r)[n] {
      OptionsKeep(Base(r), r, n);
    }
  }

  function Or(v: Option<string>): Json { if v.Some? then JString(v.value) else JNull }

  /** Printing then reading each optional member. */
  lemma PrintedOptional(r: ExecutionRequest)
    ensures var f := PrintExecution(r).fields;
            && Member(f, PlanDigestName) == Or(r.planDigest) && Member(f, ConfirmationIdName) == Or(r.confirmationId)
            && Member(f, ServiceScopeName) == (if r.scope.Some? then JList(Quoted(r.scope.value)) else JNull)
            && Member(f, RegistrationIdName) == Or(r.registrationId)
            && Member(f, RegistrationDigestName) == Or(r.registrationDigest)
  {
  }

  lemma PrintedOnly(r: ExecutionRequest)
    ensures PrintExecution(r).fields.Keys <= Printed() && MessageTypeName !in PrintExecution(r).fields
  {
  }

  const OPTIONAL: set<Name> :=
    {PlanDigestName, ConfirmationIdName, ServiceScopeName, RegistrationIdName, RegistrationDigestName}

  function Printed(): set<Name> { REQUIRED + OPTIONAL }

  lemma FewNames()
    ensures |REQUIRED| <= 7 && |OPTIONAL| <= 5
  {
  }

  lemma FewMembers(f: Fields)
    requires f.Keys <= Printed()
    ensures |f| <= 12
  {
    FewNames();
    var k := Printed();
    assert |k| <= |REQUIRED| + |OPTIONAL|;
    assert k == f.Keys + (k - f.Keys);
    assert |f.Keys| == |f|;
  }

  /** The members of `f` are those of `r`. */
  predicate Reads(f: Fields, r: ExecutionRequest) {
    && REQUIRED <= f.Keys && |f| <= 16
    && f[ActionIdName] == JString(r.actionId) && f[CapabilityIdName] == r.capability && f[TargetIdName] == r.target
    && f[ContractDigestName] == JString(r.contractDigest) && f[LeaseIdName] == JString(r.leaseId)
    && f[FencingTokenName] == JInt(r.fencingToken) && f[ActionProtocolName] == JString(r.protocol)
    && Member(f, PlanDigestName) == Or(r.planDigest) && Member(f, ConfirmationIdName) == Or(r.confirmationId)
    && Member(f, ServiceScopeName) == (if r.scope.Some? then JList(Quoted(r.scope.value)) else JNull)
    && Member(f, RegistrationIdName) == Or(r.registrationId)
    && Member(f, RegistrationDigestName) == Or(r.registrationDigest)
  }

  lemma PrintedReads(r: ExecutionRequest)
    ensures Reads(PrintExecution(r).fields, r)
  {
    PrintedRequired(r);
    PrintedOptional(r);
    PrintedOnly(r);
    FewMembers(PrintExecution(r).fields);
  }

  /** What every accepted request satisfies. */
  predicate Good(r: ExecutionRequest) {
    && r.actionId != "" && r.contractDigest != "" && r.leaseId != ""
    && (r.protocol == "legacy-v1" || r.protocol == "mc616d2-v1")
    && (r.capability == JString("execute_update_plan") || r.capability == JString("execute_service_update") ==>
          r.planDigest.Some? && r.confirmationId.Some?)
    && (r.capability == JString("execute_service_update") ==> r.scope.Some?)
    && (r.planDigest.Some? ==> IsHex(r.planDigest.value, 64))
    && (r.confirmationId.Some? ==> IsHex(r.confirmationId.value, 32))
    && (r.registrationDigest.Some? ==> IsHex(r.registrationDigest.value, 64))
    && (r.registrationId.Some? ==> 1 <= |r.registrationId.value| <= 128)
    && (r.scope.Some? ==> ScopeOk(r.scope.value))
  }

  lemma AcceptedIsGood(p: Json)
    requires ParseExecution(p).Ok?
    ensures Good(ParseExecution(p).value)
  {
  }

  lemma GoodIsAcceptable(f: Fields, r: ExecutionRequest)
    requires Reads(f, r) && Good(r)
    ensures Acceptable(f)
  {
    if r.scope.Some? { GoodItems(JList(Quoted(r.scope.value)), r.scope.value); }
  }

  lemma ReadsBack(f: Fields, r: ExecutionRequest)
    requires Reads(f, r) && Good(r)
    ensures ParseExecution(JObject(f)) == Ok(r)
  {
    GoodIsAcceptable(f, r);
    if r.scope.Some? { GoodItems(JList(Quoted(r.scope.value)), r.scope.value); }
  }

  /** What is accepted: exactly the objects of at most sixteen members that spell
      out a good request, whatever else they carry. */
  lemma AcceptsExactly(p: Json)
    ensures ParseExecution(p).Ok? <==> p.JObject? && exists r :: Good(r) && Reads(p.fields, r)
  {
    if ParseExecution(p).Ok? {
      AcceptedIsGood(p);
      var r := ParseExecution(p).value;
      if r.scope.Some? { ScopeIsAsGiven(p); }
      assert Good(r) && Reads(p.fields, r);
    }
    if p.JObject? {
      forall r | Good(r) && Reads(p.fields, r) ensures Acceptable(p.fields) { GoodIsAcceptable(p.fields, r); }
    }
  }

  lemma ScopeIsAsGiven(p: Json)
    requires ParseExecution(p).Ok? && ParseExecution(p).value.scope.Some?
    ensures Member(p.fields, ServiceScopeName) == JList(Quoted(ParseExecution(p).value.scope.value))
  {
    var given := Member(p.fields, ServiceScopeName);
    assert given.items == Quoted(ParseExecution(p).value.scope.value);
  }

  /** Every request that is accepted prints to one that parses to the same
      value, with the same ordered, repetition-free scope. */
  lemma ExecutionRoundTrip(p: Json)
    requires ParseExecution(p).Ok?
    ensures var r := ParseExecution(p).value;
            && ParseExecution(PrintExecution(r)) == Ok(r)
            && (r.scope.Some? ==>
                  ScopeOk(r.scope.value) && Member(p.fields, ServiceScopeName) == JList(Quoted(r.scope.value)))
  {
    var r := ParseExecution(p).value;
    AcceptedIsGood(p);
    PrintedReads(r);
    ReadsBack(PrintExecution(r).fields, r);
    if r.scope.Some? { ScopeIsAsGiven(p); }
  }

  // ----- receipt queries --------------------------------------------------------------------

  datatype ReceiptQuery = ReceiptQuery(actionId: string, fencingToken: int) {
    predicate Valid() { IsHex(actionId, 64) && fencingToken >= 1 }
  }

  function ParseQuery(p: Json): Result<ReceiptQuery> {
    if !p.JObject? || p.fields.Keys != {MessageTypeName, ActionIdName, FencingTokenName} then Err(InvalidRequest) else
    var f := p.fields;
    if f[MessageTypeName] != JString(QUERY_MESSAGE_TYPE) then Err(InvalidRequest)
    else if !f[ActionIdName].JString? || !IsHex(f[ActionIdName].s, 64) then Err(InvalidRequest)
    else if !f[FencingTokenName].JInt? || f[FencingTokenName].i < 1 then Err(InvalidRequest)
    else Ok(ReceiptQuery(f[ActionIdName].s, f[FencingTokenName].i))
  }

  function PrintQuery(q: ReceiptQuery): Json {
    JObject(map[MessageTypeName := JString(QUERY_MESSAGE_TYPE), ActionIdName := JString(q.actionId),
                FencingTokenName := JInt(q.fencingToken)])
  }

  /** Queries and their JSON objects correspond one to one. */
  lemma QueryRoundTrip(q: ReceiptQuery, p: Json)
    ensures ParseQuery(PrintQuery(q)) == (if q.Valid() then Ok(q) else Err(InvalidRequest))
    ensures ParseQuery(p).Ok? ==> ParseQuery(p).value.Valid() && PrintQuery(ParseQuery(p).value) == p
  {
    assert PrintQuery(q).fields.Keys == {MessageTypeName, ActionIdName, FencingTokenName};
    if ParseQuery(p).Ok? { assert PrintQuery(ParseQuery(p).value).fields == p.fields; }
  }

  /** `_is_query_frame` decides which parser a frame is given to. */
  predicate IsQuery(p: Json) {
    p.JObject? && MessageTypeName in p.fields && p.fields[MessageTypeName] == JString(QUERY_MESSAGE_TYPE)
  }

  datatype Message = Execution(request: ExecutionRequest) | Query(query: ReceiptQuery) | Unreadable

  function Dispatch(p: Json): Message {
    if IsQuery(p) then (if ParseQuery(p).Ok? then Query(ParseQuery(p).value) else Unreadable)
    else if ParseExecution(p).Ok? then Execution(ParseExecution(p).value) else Unreadable
  }

  /** The two kinds are never mistaken for each other: no object is accepted by
      both parsers, printed messages reach their own parser, and an object that
      parses as an execution is executed if and only if it does not also carry
      the query marker, in which case it is refused. */
  lemma KindsAreDisjoint(p: Json, q: ReceiptQuery)
    ensures !(ParseExecution(p).Ok? && ParseQuery(p).Ok?)
    ensures q.Valid() ==> Dispatch(PrintQuery(q)) == Query(q)
    ensures ParseExecution(p).Ok? ==>
      && Dispatch(PrintExecution(ParseExecution(p).value)) == Execution(ParseExecution(p).value)
      && Dispatch(p) == (if IsQuery(p) then Unreadable else Execution(ParseExecution(p).value))
  {
    if ParseExecution(p).Ok? {
      assert TargetIdName in p.fields;
      ExecutionRoundTrip(p);
      PrintedOnly(ParseExecution(p).value);
    }
    QueryRoundTrip(q, p);
  }
}
