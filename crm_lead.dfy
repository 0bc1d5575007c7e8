/** The CRM side of lead capture (backend/python/crm_lead.py): the access-token cache
    of the CRM client, the payloads it builds, the status codes it accepts, and the
    create-or-update procedure of the lead creation service with its retry loop.
    HTTP exchanges are inputs: each operation receives the response it would get. */
module CrmLead {
  import opened Wrappers
  import opened Text

  // ---------------------------------------------------------------------------
  // Records and clock
  // ---------------------------------------------------------------------------

  /** A value of a JSON-like record: a string, an integer or Python's None. */
  datatype Value = Str(s: string) | Int(i: int) | Null

  /** A flat dictionary such as `lead_data`, `task_data` or a CRM record. */
  type Record = map<string, Value>

  /** `d.get(key)`: the value, or `None` when the key is missing. */
  function Lookup(d: Record, key: string): (r: Option<Value>)
    ensures r.Some? <==> key in d
    ensures r.Some? ==> r.value == d[key]
  {
    if key in d then Some(d[key]) else None
  }

  /** `d.get(key, default)`. */
  function Get(d: Record, key: string, default: Value): Value {
    Lookup(d, key).GetOr(default)
  }

  /** A reading of `datetime.now()`, in microseconds. */
  type Instant = nat

  const MicrosPerMinute: nat := 60_000_000

  /** `t.replace(second=0, microsecond=0)`: the start of the minute holding `t`. */
  function TruncateToMinute(t: Instant): (r: Instant)
    ensures r <= t < r + MicrosPerMinute
    ensures r % MicrosPerMinute == 0
  {
    t - t % MicrosPerMinute
  }

  // ---------------------------------------------------------------------------
  // Access token cache
  // ---------------------------------------------------------------------------

  /** The cached `access_token` and `token_expiry` fields of the client. */
  datatype TokenState = TokenState(accessToken: Option<string>, tokenExpiry: Option<Instant>)

  /** The token endpoint's reply: its status, its body text, and the `access_token`
      member of the decoded body when it has one. */
  datatype TokenResponse = TokenResponse(status: int, text: string, accessToken: Option<string>)

  /** The result of one `get_access_token` call: the new cache, the token or the
      exception, and whether the token endpoint was called. */
  datatype TokenStepResult = TokenStepResult(state: TokenState, result: Result<string>, refreshed: bool)

  /** `self.access_token and self.token_expiry > datetime.now()`: a non-empty cached
      token whose expiry is still ahead. */
  predicate CachedTokenUsable(st: TokenState, now: Instant) {
    st.accessToken.Some? && |st.accessToken.value| > 0
    && st.tokenExpiry.Some? && st.tokenExpiry.value > now
  }

  /** `get_access_token` at time `now`, given the reply the token endpoint would send,
      with `expiry` the expiry a refresh stores. */
  function RefreshStep(st: TokenState, now: Instant, reply: TokenResponse, expiry: Instant): TokenStepResult {
    if CachedTokenUsable(st, now) then
      TokenStepResult(st, Ok(st.accessToken.value), false)
    else if reply.status != 200 then
      TokenStepResult(st, Raised("Failed to refresh token: " + reply.text), true)
    else if reply.accessToken.None? then
      TokenStepResult(st, Raised("'access_token'"), true)
    else
      var token := reply.accessToken.value;
      TokenStepResult(TokenState(Some(token), Some(expiry)), Ok(token), true)
  }

  /** What `get_access_token` does as written: a refresh stores the expiry `now`
      truncated to the minute. */
  function TokenStep(st: TokenState, now: Instant, reply: TokenResponse): TokenStepResult {
    RefreshStep(st, now, reply, TruncateToMinute(now))
  }

  /** The cached token is returned, with no call to the token endpoint and no change
      to the cache, exactly when it is non-empty and not yet expired. */
  lemma CachedTokenIffUsable(st: TokenState, now: Instant, reply: TokenResponse)
    ensures !TokenStep(st, now, reply).refreshed <==> CachedTokenUsable(st, now)
    ensures !TokenStep(st, now, reply).refreshed ==>
              TokenStep(st, now, reply) == TokenStepResult(st, Ok(st.accessToken.value), false)
  {
  }

  /** A refresh that fails raises with the response text and leaves the cache as it was. */
  lemma FailedRefreshKeepsCache(st: TokenState, now: Instant, reply: TokenResponse)
    requires !CachedTokenUsable(st, now) && reply.status != 200
    ensures TokenStep(st, now, reply).state == st
    ensures TokenStep(st, now, reply).result == Raised("Failed to refresh token: " + reply.text)
  {
  }

  /** The expiry stored by a refresh is not after the refresh itself: the token is
      stale on arrival, and every later call, whatever its clock reading from then on,
      goes back to the token endpoint. */
  lemma RefreshedTokenIsAlreadyStale(st: TokenState, now: Instant, reply: TokenResponse,
                                     later: Instant, nextReply: TokenResponse)
    requires TokenStep(st, now, reply).result.Ok? && TokenStep(st, now, reply).refreshed
    requires later >= now
    ensures TokenStep(st, now, reply).state.tokenExpiry.value <= now
    ensures TokenStep(TokenStep(st, now, reply).state, later, nextReply).refreshed
  {
    assert TokenStep(st, now, reply).state.tokenExpiry == Some(TruncateToMinute(now));
  }

  /** The lifetime the comment beside the refresh announces for a token: 55 minutes,
      five short of the endpoint's 3600 seconds. */
  const TokenLifetime: nat := 55 * MicrosPerMinute

  /** `get_access_token` as its comment intends: a refresh stores the expiry 55 minutes
      after the refresh. Nothing else in the model uses it. */
  function IntendedTokenStep(st: TokenState, now: Instant, reply: TokenResponse): TokenStepResult {
    RefreshStep(st, now, reply, now + TokenLifetime)
  }

  /** With the intended expiry, a call after a successful refresh that brought a
      non-empty token is answered from the cache, without calling the endpoint and
      without changing the cache, exactly when it comes less than 55 minutes after
      the refresh. */
  lemma IntendedTokenCachedWithinWindow(st: TokenState, now: Instant, reply: TokenResponse,
                                        later: Instant, nextReply: TokenResponse)
    requires IntendedTokenStep(st, now, reply).refreshed
    requires IntendedTokenStep(st, now, reply).result.Ok?
    requires |IntendedTokenStep(st, now, reply).result.value| > 0
    requires now <= later
    ensures var first := IntendedTokenStep(st, now, reply);
            var second := IntendedTokenStep(first.state, later, nextReply);
            (!second.refreshed <==> later < now + TokenLifetime)
            && (later < now + TokenLifetime ==> second.result == first.result && second.state == first.state)
  {
    var first := IntendedTokenStep(st, now, reply);
    assert first.state == TokenState(Some(first.result.value), Some(now + TokenLifetime));
  }

  // ---------------------------------------------------------------------------
  // Payloads and status codes
  // ---------------------------------------------------------------------------

  /** One line of the `create_lead` field mapping: the key read from `lead_data`, the
      CRM field it fills, and the value used when the key is missing. */
  datatype FieldMapping = FieldMapping(key: string, field: string, default: Value)

  const LeadFields: seq<FieldMapping> := [
    FieldMapping("first_name", "First_Name", Str("")),
    FieldMapping("last_name", "Last_Name", Str("")),
    FieldMapping("email", "Email", Str("")),
    FieldMapping("phone", "Phone", Str("")),
    FieldMapping("company", "Company", Str("")),
    FieldMapping("lead_source", "Lead_Source", Str("Website Chat")),
    FieldMapping("description", "Description", Str("")),
    FieldMapping("lead_score", "Lead_Score__c", Int(50)),
    FieldMapping("business_type", "Business_Type__c", Str(""))]

  /** The single record of the `create_lead` payload. */
  function CreateLeadRecord(leadData: Record): Record {
    map[
      "First_Name" := Get(leadData, "first_name", Str("")),
      "Last_Name" := Get(leadData, "last_name", Str("")),
      "Email" := Get(leadData, "email", Str("")),
      "Phone" := Get(leadData, "phone", Str("")),
      "Company" := Get(leadData, "company", Str("")),
      "Lead_Source" := Get(leadData, "lead_source", Str("Website Chat")),
      "Description" := Get(leadData, "description", Str("")),
      "Lead_Score__c" := Get(leadData, "lead_score", Int(50)),
      "Business_Type__c" := Get(leadData, "business_type", Str(""))]
  }

  /** The CRM fields named by the mapping table. */
  function TableFields(): (fields: set<string>)
    ensures forall j :: 0 <= j < |LeadFields| ==> LeadFields[j].field in fields
  {
    set j | 0 <= j < |LeadFields| :: LeadFields[j].field
  }

  /** No two lines of a mapping table name the same CRM field. */
  predicate DistinctFields(table: seq<FieldMapping>) {
    forall i, j :: 0 <= i < j < |table| ==> table[i].field != table[j].field
  }

  /** The CRM fields a mapping table names, gathered line by line. */
  function FieldsOf(table: seq<FieldMapping>): (fields: set<string>)
    ensures forall j :: 0 <= j < |table| ==> table[j].field in fields
    ensures forall f :: f in fields ==> exists j :: 0 <= j < |table| && table[j].field == f
  {
    if table == [] then {}
    else
      var init := table[..|table| - 1];
      assert forall j :: 0 <= j < |init| ==> init[j] == table[j];
      FieldsOf(init) + {table[|table| - 1].field}
  }

  /** A table whose lines name distinct fields names as many fields as it has lines. */
  lemma {:induction false} DistinctFieldsCount(table: seq<FieldMapping>)
    requires DistinctFields(table)
    ensures |FieldsOf(table)| == |table|
  {
    if table != [] {
      var init := table[..|table| - 1];
      assert forall j :: 0 <= j < |init| ==> init[j] == table[j];
      assert table[|table| - 1].field !in FieldsOf(init);
      DistinctFieldsCount(init);
    }
  }

  /** No two lines of the mapping table name the same CRM field: the nine names differ
      in their first letter or in their length. */
  lemma LeadFieldsDistinct()
    ensures DistinctFields(LeadFields)
  {
    forall i, j | 0 <= i < j < |LeadFields|
      ensures LeadFields[i].field != LeadFields[j].field
    {
      var fi, fj := LeadFields[i].field, LeadFields[j].field;
      assert fi[0] != fj[0] || |fi| != |fj|;
    }
  }

  /** The nine lines of the mapping table name nine distinct CRM fields. */
  lemma TableFieldsAreDistinct()
    ensures DistinctFields(LeadFields)
    ensures |TableFields()| == |LeadFields| == 9
  {
    LeadFieldsDistinct();
    DistinctFieldsCount(LeadFields);
    assert TableFields() == FieldsOf(LeadFields);
  }

  /** One line of the mapping table: its CRM field is in the create payload and holds
      the lead's value for the line's key or, when the key is missing, its default. */
  lemma CreatePayloadFollowsLine(leadData: Record, j: nat)
    requires j < |LeadFields|
    ensures LeadFields[j].field in CreateLeadRecord(leadData)
    ensures CreateLeadRecord(leadData)[LeadFields[j].field]
            == Get(leadData, LeadFields[j].key, LeadFields[j].default)
  {
    var r := CreateLeadRecord(leadData);
    if j == 0 { assert LeadFields[j] == FieldMapping("first_name", "First_Name", Str("")); }
    else if j == 1 { assert LeadFields[j] == FieldMapping("last_name", "Last_Name", Str("")); }
    else if j == 2 { assert LeadFields[j] == FieldMapping("email", "Email", Str("")); }
    else if j == 3 { assert LeadFields[j] == FieldMapping("phone", "Phone", Str("")); }
    else if j == 4 { assert LeadFields[j] == FieldMapping("company", "Company", Str("")); }
    else if j == 5 { assert LeadFields[j] == FieldMapping("lead_source", "Lead_Source", Str("Website Chat")); }
    else if j == 6 { assert LeadFields[j] == FieldMapping("description", "Description", Str("")); }
    else if j == 7 { assert LeadFields[j] == FieldMapping("lead_score", "Lead_Score__c", Int(50)); }
    else { assert LeadFields[j] == FieldMapping("business_type", "Business_Type__c", Str("")); }
  }

  /** Every field of the create payload comes from a line of the mapping table. */
  lemma CreatePayloadHasOnlyTableFields(leadData: Record)
    ensures CreateLeadRecord(leadData).Keys <= TableFields()
  {
    forall f | f in CreateLeadRecord(leadData)
      ensures f in TableFields()
    {
      if f == "First_Name" { assert LeadFields[0].field == f; }
      else if f == "Last_Name" { assert LeadFields[1].field == f; }
      else if f == "Email" { assert LeadFields[2].field == f; }
      else if f == "Phone" { assert LeadFields[3].field == f; }
      else if f == "Company" { assert LeadFields[4].field == f; }
      else if f == "Lead_Source" { assert LeadFields[5].field == f; }
      else if f == "Description" { assert LeadFields[6].field == f; }
      else if f == "Lead_Score__c" { assert LeadFields[7].field == f; }
      else { assert LeadFields[8].field == f; }
    }
  }

  /** The create payload has exactly the CRM fields of the mapping table, each holding
      the lead's value for its key or, when the key is missing, the table's default:
      '' everywhere except 'Website Chat' for the source and 50 for the score. */
  lemma CreatePayloadFollowsFieldTable(leadData: Record)
    ensures CreateLeadRecord(leadData).Keys == TableFields()
    ensures forall j :: 0 <= j < |LeadFields| ==>
              CreateLeadRecord(leadData)[LeadFields[j].field]
              == Get(leadData, LeadFields[j].key, LeadFields[j].default)
  {
    forall j | 0 <= j < |LeadFields|
      ensures LeadFields[j].field in CreateLeadRecord(leadData)
      ensures CreateLeadRecord(leadData)[LeadFields[j].field]
              == Get(leadData, LeadFields[j].key, LeadFields[j].default)
    {
      CreatePayloadFollowsLine(leadData, j);
    }
    CreatePayloadHasOnlyTableFields(leadData);
  }

  /** The single record of the `update_lead` payload: `{'id': lead_id, **update_data}`. */
  function UpdateLeadRecord(leadId: string, updateData: Record): Record {
    map["id" := Str(leadId)] + updateData
  }

  /** The update payload carries every key of the update data with its value, and an
      `id`: the lead's id unless the update data brings its own, which then wins. */
  lemma UpdatePayloadOverridesId(leadId: string, updateData: Record)
    ensures UpdateLeadRecord(leadId, updateData).Keys == updateData.Keys + {"id"}
    ensures forall k :: k in updateData ==> UpdateLeadRecord(leadId, updateData)[k] == updateData[k]
    ensures UpdateLeadRecord(leadId, updateData)["id"]
            == if "id" in updateData then updateData["id"] else Str(leadId)
  {
  }

  /** The single record of the `create_task` payload; a missing due date is None. */
  function TaskRecord(leadId: string, taskData: Record): Record {
    map[
      "Subject" := Get(taskData, "subject", Str("")),
      "Description" := Get(taskData, "description", Str("")),
      "Due_Date" := Get(taskData, "due_date", Null),
      "Priority" := Get(taskData, "priority", Str("Medium")),
      "Who_Id" := Str(leadId)]
  }

  /** The `task_data` of `create_follow_up_task` for a due date already formatted. */
  function FollowUpTaskData(dueDate: string): Record {
    map[
      "subject" := Str("Follow up with lead"),
      "description" := Str("Reach out to prospect regarding their requirements"),
      "due_date" := Str(dueDate),
      "priority" := Str("High")]
  }

  /** The follow-up task sent to the CRM: the fixed subject and description, the due
      date, High priority, and the lead as its `Who_Id`. */
  lemma FollowUpTaskPayload(leadId: string, dueDate: string)
    ensures TaskRecord(leadId, FollowUpTaskData(dueDate)) == map[
              "Subject" := Str("Follow up with lead"),
              "Description" := Str("Reach out to prospect regarding their requirements"),
              "Due_Date" := Str(dueDate),
              "Priority" := Str("High"),
              "Who_Id" := Str(leadId)]
  {
    var d := FollowUpTaskData(dueDate);
    assert Get(d, "subject", Str("")) == Str("Follow up with lead");
    assert Get(d, "description", Str("")) == Str("Reach out to prospect regarding their requirements");
    assert Get(d, "due_date", Null) == Str(dueDate);
    assert Get(d, "priority", Str("Medium")) == Str("High");
  }

  /** `str(value)` for the values an e-mail can hold; a missing e-mail is None. */
  function ValueText(v: Option<Value>): string {
    match v
    case Some(Str(s)) => s
    case Some(Int(i)) => IntToString(i)
    case Some(Null) => "None"
    case None => "None"
  }

  const CriteriaPrefix := "(Email:equals:"

  /** The search criteria `(Email:equals:<email>)`. */
  function SearchCriteria(email: Option<Value>): string {
    CriteriaPrefix + ValueText(email) + ")"
  }

  /** The criteria read back: the fixed prefix, the e-mail's text, a closing bracket. */
  lemma SearchCriteriaReadsBack(email: Option<Value>)
    ensures var c := SearchCriteria(email);
            |c| == |CriteriaPrefix| + |ValueText(email)| + 1
            && c[..|CriteriaPrefix|] == CriteriaPrefix
            && c[|CriteriaPrefix|..|c| - 1] == ValueText(email)
            && c[|c| - 1] == ')'
  {
    var c := SearchCriteria(email);
    assert c == CriteriaPrefix + (ValueText(email) + ")");
    assert c[|CriteriaPrefix|..] == ValueText(email) + ")";
  }

  // The status codes each call accepts.
  predicate CreateAccepted(status: int) { status == 200 || status == 201 }
  predicate TaskAccepted(status: int) { status == 200 || status == 201 }
  predicate UpdateAccepted(status: int) { status == 200 || status == 204 }
  predicate SearchAccepted(status: int) { status == 200 }

  /** A CRM reply: its status, its body text, and the `id` of each record under the
      body's `data` member. */
  datatype HttpResponse = HttpResponse(status: int, text: string, ids: seq<string>)

  /** `data['data'][0]['id']`, which raises on an empty list. */
  function FirstId(response: HttpResponse): Result<string> {
    if |response.ids| == 0 then Raised("list index out of range") else Ok(response.ids[0])
  }

  /** A request the client sent: the token refresh, or a CRM call with the bearer token. */
  datatype Request =
    | RefreshToken
    | PostLead(bearer: string, record: Record)
    | PutLead(bearer: string, record: Record)
    | SearchLeads(bearer: string, criteria: string)
    | GetLeadById(bearer: string, leadId: string)
    | PostTask(bearer: string, record: Record)

  // ---------------------------------------------------------------------------
  // The CRM client
  // ---------------------------------------------------------------------------

  /** `ZohoCRMClient`: the token cache and the log of requests sent. Each call takes the
      clock reading, the token endpoint's reply (used only when a refresh happens) and
      the reply of the CRM call itself. */
  class ZohoCrmClient {
    var accessToken: Option<string>
    var tokenExpiry: Option<Instant>
    var sent: seq<Request>

    /** The token and its expiry are set together. */
    predicate Valid()
      reads this
    {
      accessToken.Some? == tokenExpiry.Some?
    }

    function Cache(): TokenState
      reads this
    {
      TokenState(accessToken, tokenExpiry)
    }

    /** A new client holds no token and has sent nothing. */
    constructor()
      ensures Valid() && accessToken.None? && tokenExpiry.None? && sent == []
    {
      accessToken := None;
      tokenExpiry := None;
      sent := [];
    }

    /** `get_access_token`, proved to follow `TokenStep`; a refresh is logged. */
    method GetAccessToken(now: Instant, reply: TokenResponse) returns (r: Result<string>)
      requires Valid()
      modifies this
      ensures Valid()
      ensures var step := TokenStep(old(Cache()), now, reply);
              Cache() == step.state && r == step.result
              && sent == old(sent) + (if step.refreshed then [RefreshToken] else [])
    {
      if accessToken.Some? && |accessToken.value| > 0 && tokenExpiry.value > now {
        return Ok(accessToken.value);
      }
      sent := sent + [RefreshToken];
      if reply.status != 200 {
        return Raised("Failed to refresh token: " + reply.text);
      }
      if reply.accessToken.None? {
        return Raised("'access_token'");
      }
      accessToken := reply.accessToken;
      tokenExpiry := Some(TruncateToMinute(now));
      return Ok(accessToken.value);
    }

    /** `create_lead`: post the mapped record and return the new lead's id, raising
        on a status other than 200 or 201. */
    method CreateLead(leadData: Record, now: Instant, reply: TokenResponse, response: HttpResponse)
      returns (r: Result<string>)
      requires Valid()
      modifies this
      ensures Valid()
      ensures var step := TokenStep(old(Cache()), now, reply);
              var log := old(sent) + (if step.refreshed then [RefreshToken] else []);
              Cache() == step.state
              && (step.result.Raised? ==> r == Raised(step.result.error) && sent == log)
              && (step.result.Ok? ==>
                    sent == log + [PostLead(step.result.value, CreateLeadRecord(leadData))]
                    && r == if CreateAccepted(response.status) then FirstId(response)
                            else Raised("Lead creation failed: " + IntToString(response.status)))
    {
      var token := GetAccessToken(now, reply);
      if token.Raised? {
        return Raised(token.error);
      }
      sent := sent + [PostLead(token.value, CreateLeadRecord(leadData))];
      if response.status != 200 && response.status != 201 {
        return Raised("Lead creation failed: " + IntToString(response.status));
      }
      r := FirstId(response);
    }

    /** `create_task`: post the task record and return the task's id, raising on a
        status other than 200 or 201. */
    method CreateTask(leadId: string, taskData: Record, now: Instant, reply: TokenResponse,
                      response: HttpResponse)
      returns (r: Result<string>)
      requires Valid()
      modifies this
      ensures Valid()
      ensures var step := TokenStep(old(Cache()), now, reply);
              var log := old(sent) + (if step.refreshed then [RefreshToken] else []);
              Cache() == step.state
              && (step.result.Raised? ==> r == Raised(step.result.error) && sent == log)
              && (step.result.Ok? ==>
                    sent == log + [PostTask(step.result.value, TaskRecord(leadId, taskData))]
                    && r == if TaskAccepted(response.status) then FirstId(response)
                            else Raised("Task creation failed: " + IntToString(response.status)))
    {
      var token := GetAccessToken(now, reply);
      if token.Raised? {
        return Raised(token.error);
      }
      sent := sent + [PostTask(token.value, TaskRecord(leadId, taskData))];
      if response.status != 200 && response.status != 201 {
        return Raised("Task creation failed: " + IntToString(response.status));
      }
      r := FirstId(response);
    }

    /** `search_leads_by_email`: the ids of the matching leads, or none at all when the
        search answers with any status but 200. */
    method SearchLeadsByEmail(email: Option<Value>, now: Instant, reply: TokenResponse,
                              response: HttpResponse)
      returns (r: Result<seq<string>>)
      requires Valid()
      modifies this
      ensures Valid()
      ensures var step := TokenStep(old(Cache()), now, reply);
              var log := old(sent) + (if step.refreshed then [RefreshToken] else []);
              Cache() == step.state
              && (step.result.Raised? ==> r == Raised(step.result.error) && sent == log)
              && (step.result.Ok? ==>
                    sent == log + [SearchLeads(step.result.value, SearchCriteria(email))]
                    && r == Ok(if SearchAccepted(response.status) then response.ids else []))
    {
      var token := GetAccessToken(now, reply);
      if token.Raised? {
        return Raised(token.error);
      }
      sent := sent + [SearchLeads(token.value, SearchCriteria(email))];
      if response.status != 200 {
        return Ok([]);
      }
      r := Ok(response.ids);
    }

    /** `get_lead`: fetch one lead, raising on any status but 200; the reply itself is
        the result. */
    method GetLead(leadId: string, now: Instant, reply: TokenResponse, response: HttpResponse)
      returns (r: Result<HttpResponse>)
      requires Valid()
      modifies this
      ensures Valid()
      ensures var step := TokenStep(old(Cache()), now, reply);
              var log := old(sent) + (if step.refreshed then [RefreshToken] else []);
              Cache() == step.state
              && (step.result.Raised? ==> r == Raised(step.result.error) && sent == log)
              && (step.result.Ok? ==>
                    sent == log + [GetLeadById(step.result.value, leadId)]
                    && r == if response.status == 200 then Ok(response)
                            else Raised("Lead fetch failed: " + IntToString(response.status)))
    {
      var token := GetAccessToken(now, reply);
      if token.Raised? {
        return Raised(token.error);
      }
      sent := sent + [GetLeadById(token.value, leadId)];
      if response.status != 200 {
        return Raised("Lead fetch failed: " + IntToString(response.status));
      }
      r := Ok(response);
    }

    /** `update_lead`: put the update record, raising on a status other than 200 or 204. */
    method UpdateLead(leadId: string, updateData: Record, now: Instant, reply: TokenResponse,
                      response: HttpResponse)
      returns (r: Result<()>)
      requires Valid()
      modifies this
      ensures Valid()
      ensures var step := TokenStep(old(Cache()), now, reply);
              var log := old(sent) + (if step.refreshed then [RefreshToken] else []);
              Cache() == step.state
              && (step.result.Raised? ==> r == Raised(step.result.error) && sent == log)
              && (step.result.Ok? ==>
                    sent == log + [PutLead(step.result.value, UpdateLeadRecord(leadId, updateData))]
                    && r == if UpdateAccepted(response.status) then Ok(())
                            else Raised("Lead update failed: " + IntToString(response.status)))
    {
      var token := GetAccessToken(now, reply);
      if token.Raised? {
        return Raised(token.error);
      }
      sent := sent + [PutLead(token.value, UpdateLeadRecord(leadId, updateData))];
      if response.status != 200 && response.status != 204 {
        return Raised("Lead update failed: " + IntToString(response.status));
      }
      r := Ok(());
    }
  }

  // ---------------------------------------------------------------------------
  // Create or update
  // ---------------------------------------------------------------------------

  /** A client operation the service invoked. */
  datatype Call = Search(email: Option<Value>) | Update(leadId: string, data: Record) | Create(data: Record)

  /** The dictionary `create_or_update_lead` returns; `NoResult` is Python's None. */
  datatype Reconciled =
    | Updated(leadId: string)
    | Created(leadId: string)
    | Failed(error: string, leadData: Record)
    | NoResult

  /** The outcome together with the calls made and the back-off sleeps taken. */
  datatype Run = Run(result: Reconciled, calls: seq<Call>, sleeps: seq<nat>)

  /** The position of the first success, or the length when every outcome raised. */
  function FirstOk<T>(outcomes: seq<Result<T>>): (k: nat)
    ensures k <= |outcomes|
    ensures forall i :: 0 <= i < k ==> outcomes[i].Raised?
    ensures k < |outcomes| ==> outcomes[k].Ok?
  {
    if outcomes == [] || outcomes[0].Ok? then 0 else 1 + FirstOk(outcomes[1..])
  }

  function Pow2(n: nat): nat {
    if n == 0 then 1 else 2 * Pow2(n - 1)
  }

  /** The sleeps after `n` failed attempts that were not the last: 2^0, ..., 2^(n-1). */
  function Backoff(n: nat): seq<nat> {
    if n == 0 then [] else Backoff(n - 1) + [Pow2(n - 1)]
  }

  function Sum(s: seq<nat>): nat {
    if s == [] then 0 else Sum(s[..|s| - 1]) + s[|s| - 1]
  }

  /** The `i`-th back-off sleep lasts 2^i seconds, and `n` of them add up to 2^n - 1. */
  lemma {:induction false} BackoffSchedule(n: nat)
    ensures |Backoff(n)| == n
    ensures forall i :: 0 <= i < n ==> Backoff(n)[i] == Pow2(i)
    ensures Sum(Backoff(n)) == Pow2(n) - 1
  {
    if n > 0 {
      BackoffSchedule(n - 1);
      assert Backoff(n)[..n - 1] == Backoff(n - 1);
    }
  }

  /** `n` calls to `create_lead` with the same data. */
  function CreateCalls(leadData: Record, n: nat): seq<Call> {
    seq(n, _ => Create(leadData))
  }

  /** The calls of the search phase: the search, then the update of the first match
      when the search found any. */
  function SearchCalls(leadData: Record, search: Result<seq<string>>): seq<Call> {
    [Search(Lookup(leadData, "email"))]
    + if search.Ok? && |search.value| > 0 then [Update(search.value[0], leadData)] else []
  }

  /** The create loop of `create_or_update_lead`: up to `maxRetries` attempts with the
      given outcomes, sleeping 2^i seconds after a failed attempt i that is not the
      last; None when `maxRetries` is not positive. */
  function Retry(leadData: Record, maxRetries: int, creates: seq<Result<string>>): Run
    requires maxRetries <= |creates|
  {
    if maxRetries <= 0 then
      Run(NoResult, [], [])
    else
      var k := FirstOk(creates[..maxRetries]);
      if k < maxRetries then
        Run(Created(creates[k].value), CreateCalls(leadData, k + 1), Backoff(k))
      else
        Run(Failed(creates[maxRetries - 1].error, leadData),
            CreateCalls(leadData, maxRetries), Backoff(maxRetries - 1))
  }

  /** What `create_or_update_lead` does, given the outcome of the search (the ids found,
      or the exception), of the update (consulted only when one is made), and of each
      create attempt in turn. */
  function Reconcile(leadData: Record, maxRetries: int, search: Result<seq<string>>,
                     update: Result<()>, creates: seq<Result<string>>): Run
    requires maxRetries <= |creates|
  {
    var before := SearchCalls(leadData, search);
    if search.Ok? && |search.value| > 0 && update.Ok? then
      Run(Updated(search.value[0]), before, [])
    else
      var retry := Retry(leadData, maxRetries, creates);
      Run(retry.result, before + retry.calls, retry.sleeps)
  }

  /** How many of the calls are creates. */
  function CreateCount(calls: seq<Call>): nat {
    if calls == [] then 0
    else CreateCount(calls[..|calls| - 1]) + (if calls[|calls| - 1].Create? then 1 else 0)
  }

  lemma {:induction false} CreateCountAppend(a: seq<Call>, b: seq<Call>)
    ensures CreateCount(a + b) == CreateCount(a) + CreateCount(b)
  {
    if b != [] {
      CreateCountAppend(a, b[..|b| - 1]);
      assert (a + b)[..|a + b| - 1] == a + b[..|b| - 1];
    } else {
      assert a + b == a;
    }
  }

  lemma {:induction false} CreateCallsCount(leadData: Record, n: nat)
    ensures CreateCount(CreateCalls(leadData, n)) == n
  {
    if n > 0 {
      CreateCallsCount(leadData, n - 1);
      assert CreateCalls(leadData, n)[..n - 1] == CreateCalls(leadData, n - 1);
    }
  }

  /** A match found by the search and updated without error: one search, one update of
      the first match, no create and no sleep. */
  lemma UpdatesExistingLead(leadData: Record, maxRetries: int, ids: seq<string>,
                            creates: seq<Result<string>>)
    requires maxRetries <= |creates| && |ids| > 0
    ensures Reconcile(leadData, maxRetries, Ok(ids), Ok(()), creates)
            == Run(Updated(ids[0]), [Search(Lookup(leadData, "email")), Update(ids[0], leadData)], [])
  {
  }

  /** A search that raises or finds nothing, or an update that raises, is swallowed:
      the service goes on to create, and never reports an update. */
  lemma FailuresFallThroughToCreate(leadData: Record, maxRetries: int, search: Result<seq<string>>,
                                    update: Result<()>, creates: seq<Result<string>>)
    requires 0 < maxRetries <= |creates|
    requires search.Raised? || |search.value| == 0 || update.Raised?
    ensures var run := Reconcile(leadData, maxRetries, search, update, creates);
            !run.result.Updated? && !run.result.NoResult?
            && run.calls[|SearchCalls(leadData, search)|] == Create(leadData)
  {
  }

  /** With no search match updated and `max_retries` not positive, nothing is created,
      nothing is slept, and the result is None. */
  lemma NoRetriesReturnsNone(leadData: Record, maxRetries: int, search: Result<seq<string>>,
                             update: Result<()>, creates: seq<Result<string>>)
    requires maxRetries <= 0 && maxRetries <= |creates|
    requires search.Raised? || |search.value| == 0 || update.Raised?
    ensures Reconcile(leadData, maxRetries, search, update, creates)
            == Run(NoResult, SearchCalls(leadData, search), [])
  {
    assert SearchCalls(leadData, search) + [] == SearchCalls(leadData, search);
  }

  /** The search phase makes no create call. */
  lemma SearchCallsCreateNothing(leadData: Record, search: Result<seq<string>>)
    ensures CreateCount(SearchCalls(leadData, search)) == 0
  {
    var first := [Search(Lookup(leadData, "email"))];
    assert CreateCount(first) == 0;
    if search.Ok? && |search.value| > 0 {
      CreateCountAppend(first, [Update(search.value[0], leadData)]);
      assert CreateCount([Update(search.value[0], leadData)]) == 0;
    } else {
      assert SearchCalls(leadData, search) == first;
    }
  }

  /** The retry loop alone: no attempt when `max_retries` is not positive, otherwise
      between one and `max_retries` attempts; one fewer sleeps than attempts, sleep `i`
      lasting 2^i seconds. */
  lemma RetryAttemptsAndSleeps(leadData: Record, maxRetries: int, creates: seq<Result<string>>)
    requires maxRetries <= |creates|
    ensures var run := Retry(leadData, maxRetries, creates);
            var attempts := CreateCount(run.calls);
            (if maxRetries <= 0 then attempts == 0 else 1 <= attempts <= maxRetries)
            && |run.sleeps| == (if attempts == 0 then 0 else attempts - 1)
            && (forall i :: 0 <= i < |run.sleeps| ==> run.sleeps[i] == Pow2(i))
  {
    var run := Retry(leadData, maxRetries, creates);
    if maxRetries > 0 {
      var k := FirstOk(creates[..maxRetries]);
      var n: nat := if k < maxRetries then k + 1 else maxRetries;
      if k < maxRetries {
        assert run == Run(Created(creates[k].value), CreateCalls(leadData, n), Backoff(n - 1));
      } else {
        assert run == Run(Failed(creates[maxRetries - 1].error, leadData),
                          CreateCalls(leadData, n), Backoff(n - 1));
      }
      CreateCallsCount(leadData, n);
      BackoffSchedule(n - 1);
      assert CreateCount(run.calls) == n;
    }
  }

  /** The create loop: at most `max_retries` attempts, one fewer sleeps than attempts,
      and sleep `i` lasting 2^i seconds. */
  lemma AttemptsAndSleeps(leadData: Record, maxRetries: int, search: Result<seq<string>>,
                          update: Result<()>, creates: seq<Result<string>>)
    requires maxRetries <= |creates|
    ensures var run := Reconcile(leadData, maxRetries, search, update, creates);
            var attempts := CreateCount(run.calls);
            (if maxRetries <= 0 then attempts == 0 else attempts <= maxRetries)
            && |run.sleeps| == (if attempts == 0 then 0 else attempts - 1)
            && (forall i :: 0 <= i < |run.sleeps| ==> run.sleeps[i] == Pow2(i))
  {
    var before := SearchCalls(leadData, search);
    SearchCallsCreateNothing(leadData, search);
    if !(search.Ok? && |search.value| > 0 && update.Ok?) {
      var retry := Retry(leadData, maxRetries, creates);
      RetryAttemptsAndSleeps(leadData, maxRetries, creates);
      CreateCountAppend(before, retry.calls);
    }
  }

  /** A creation succeeds at the first attempt whose outcome is a success, after the
      failed ones before it. */
  lemma FirstSuccessWins(leadData: Record, maxRetries: int, search: Result<seq<string>>,
                         update: Result<()>, creates: seq<Result<string>>, k: nat)
    requires maxRetries <= |creates|
    requires search.Raised? || |search.value| == 0 || update.Raised?
    requires k < maxRetries && creates[k].Ok?
    requires forall i :: 0 <= i < k ==> creates[i].Raised?
    ensures Reconcile(leadData, maxRetries, search, update, creates)
            == Run(Created(creates[k].value),
                   SearchCalls(leadData, search) + CreateCalls(leadData, k + 1), Backoff(k))
  {
    var attempts := creates[..maxRetries];
    assert attempts[k].Ok?;
    assert forall i :: 0 <= i < k ==> attempts[i].Raised?;
  }

  /** When every attempt fails, the result is a failure carrying the last attempt's
      error and the lead data as given. */
  lemma AllAttemptsFail(leadData: Record, maxRetries: int, search: Result<seq<string>>,
                        update: Result<()>, creates: seq<Result<string>>)
    requires 0 < maxRetries <= |creates|
    requires search.Raised? || |search.value| == 0 || update.Raised?
    requires forall i :: 0 <= i < maxRetries ==> creates[i].Raised?
    ensures Reconcile(leadData, maxRetries, search, update, creates).result
            == Failed(creates[maxRetries - 1].error, leadData)
  {
    var attempts := creates[..maxRetries];
    assert forall i :: 0 <= i < maxRetries ==> attempts[i].Raised?;
  }

  /** Two failures then a success with the default three retries: three create calls,
      sleeps of one and two seconds. */
  lemma FailTwiceThenSucceed(leadData: Record, e1: string, e2: string, id: string)
    ensures var run := Reconcile(leadData, 3, Raised("search failed"), Ok(()),
                                 [Raised(e1), Raised(e2), Ok(id)]);
            run.result == Created(id) && CreateCount(run.calls) == 3 && run.sleeps == [1, 2]
  {
    var creates := [Raised(e1), Raised(e2), Ok(id)];
    FirstSuccessWins(leadData, 3, Raised("search failed"), Ok(()), creates, 2);
    var calls := SearchCalls(leadData, Raised("search failed")) + CreateCalls(leadData, 3);
    CreateCountAppend(SearchCalls(leadData, Raised("search failed")), CreateCalls(leadData, 3));
    CreateCallsCount(leadData, 3);
    assert Backoff(2) == [1, 2];
  }

  /** `LeadCreationService`: the client it delegates to, the client operations
      `create_or_update_lead` invoked, and the back-off sleeps it took. */
  class LeadCreationService {
    const crmClient: ZohoCrmClient
    var calls: seq<Call>
    var sleeps: seq<nat>

    constructor(client: ZohoCrmClient)
      ensures crmClient == client && calls == [] && sleeps == []
    {
      crmClient := client;
      calls := [];
      sleeps := [];
    }

    /** `create_or_update_lead`, proved to follow `Reconcile`. */
    method CreateOrUpdateLead(leadData: Record, maxRetries: int, search: Result<seq<string>>,
                              update: Result<()>, creates: seq<Result<string>>)
      returns (r: Reconciled)
      requires maxRetries <= |creates|
      modifies this
      ensures var run := Reconcile(leadData, maxRetries, search, update, creates);
              r == run.result && calls == old(calls) + run.calls && sleeps == old(sleeps) + run.sleeps
    {
      calls := calls + [Search(Lookup(leadData, "email"))];
      if search.Ok? && |search.value| > 0 {
        var leadId := search.value[0];
        calls := calls + [Update(leadId, leadData)];
        if update.Ok? {
          return Updated(leadId);
        }
      }

      r := CreateWithRetry(leadData, maxRetries, creates);
    }

    /** The `for attempt in range(max_retries)` loop, proved to follow `Retry`. */
    method CreateWithRetry(leadData: Record, maxRetries: int, creates: seq<Result<string>>)
      returns (r: Reconciled)
      requires maxRetries <= |creates|
      modifies this
      ensures var run := Retry(leadData, maxRetries, creates);
              r == run.result && calls == old(calls) + run.calls && sleeps == old(sleeps) + run.sleeps
    {
      var attempt := 0;
      while attempt < maxRetries
        invariant attempt == 0 || attempt < maxRetries
        invariant forall i :: 0 <= i < attempt ==> creates[i].Raised?
        invariant calls == old(calls) + CreateCalls(leadData, attempt)
        invariant sleeps == old(sleeps) + Backoff(attempt)
      {
        calls := calls + [Create(leadData)];
        assert CreateCalls(leadData, attempt) + [Create(leadData)] == CreateCalls(leadData, attempt + 1);
        var outcome := creates[attempt];
        if outcome.Ok? {
          assert creates[..maxRetries][attempt].Ok?;
          assert FirstOk(creates[..maxRetries]) == attempt;
          return Created(outcome.value);
        }
        if attempt < maxRetries - 1 {
          sleeps := sleeps + [Pow2(attempt)];
        } else {
          assert FirstOk(creates[..maxRetries]) == maxRetries;
          return Failed(outcome.error, leadData);
        }
        attempt := attempt + 1;
      }
      return NoResult;
    }

    /** `create_follow_up_task`: the fixed task template with the given due date, sent
        through the client's `create_task`. */
    method CreateFollowUpTask(leadId: string, dueDate: string, now: Instant, reply: TokenResponse,
                              response: HttpResponse)
      returns (r: Result<string>)
      requires crmClient.Valid()
      modifies crmClient
      ensures crmClient.Valid()
      ensures var step := TokenStep(old(crmClient.Cache()), now, reply);
              var log := old(crmClient.sent) + (if step.refreshed then [RefreshToken] else []);
              crmClient.Cache() == step.state
              && (step.result.Raised? ==> r == Raised(step.result.error) && crmClient.sent == log)
              && (step.result.Ok? ==>
                    crmClient.sent == log + [PostTask(step.result.value, TaskRecord(leadId, FollowUpTaskData(dueDate)))]
                    && r == if TaskAccepted(response.status) then FirstId(response)
                            else Raised("Task creation failed: " + IntToString(response.status)))
    {
      r := crmClient.CreateTask(leadId, FollowUpTaskData(dueDate), now, reply, response);
    }
  }
}
