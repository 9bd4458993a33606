/**
  The forwarder to the Kit.com subscriber API (src/lib/kit.ts, `subscribeToKit`).

  It checks that the API key and form id are configured, builds the subscriber's
  custom `fields` from `source` and the non-empty UTM entries, then makes two calls in
  order: create (or update) the subscriber, then add the subscriber to the form. The
  first failure is thrown and nothing is undone. The environment and the two HTTP
  exchanges are inputs; a run reports the calls made, in order, and what was returned
  or thrown.
*/
module Kit {
  import opened Wrappers

  /** KIT_BASE */
  const KitBase: string := "https://api.kit.com/v4"

  /** What `subscribeToKit` is given. `utm` lists the entries of the UTM object in the order
      `Object.entries` yields them. */
  datatype SubscribeParams = SubscribeParams(email: string, source: string, utm: Option<seq<(string, string)>>)

  /** The environment values KIT_API_KEY and KIT_FORM_ID; None when unset. */
  datatype Env = Env(apiKey: Option<string>, formId: Option<string>)

  /** Both values are set and non-empty: `!apiKey || !formId` fails exactly when one is unset or "". */
  predicate Configured(env: Env)
    ensures !Configured(env) <==> env.apiKey in {None, Some("")} || env.formId in {None, Some("")}
  {
    && env.apiKey.Some? && env.apiKey.value != ""
    && env.formId.Some? && env.formId.value != ""
  }

  /** The body of an HTTP reply: a JSON document, kept abstract as its text, or text that
      `json()` fails to parse. */
  datatype ReplyBody = Json(document: string) | NotJson

  /** How one `fetch` ends: it throws, or a reply arrives. */
  datatype Exchange = NetworkError | Reply(status: int, body: ReplyBody)

  /** `Response.ok`: a 2xx status. */
  predicate StatusOk(status: int)
  {
    200 <= status <= 299
  }

  /** The upstream calls, with the key sent in the X-Kit-Api-Key header. */
  datatype Call =
    | CreateSubscriber(apiKey: string, emailAddress: string, fields: map<string, string>)
    | AddToForm(apiKey: string, formId: string, emailAddress: string)

  /** The URL each call is posted to, under KIT_BASE; the form call names the form id. */
  function Endpoint(call: Call): (url: string)
    ensures KitBase + "/" <= url
    ensures call.CreateSubscriber? ==> url == KitBase + "/subscribers"
    ensures call.AddToForm? ==> KitBase + "/forms/" + call.formId + "/" <= url
  {
    match call
    case CreateSubscriber(_, _, _) => KitBase + "/subscribers"
    case AddToForm(_, formId, _) => KitBase + "/forms/" + formId + "/subscribers"
  }

  /** What `subscribeToKit` throws. */
  datatype KitError = NotConfigured | FetchFailed | InvalidJson | ApiError(status: int)

  /** The calls made, in order, and the returned document or the thrown error. */
  datatype Run = Run(calls: seq<Call>, result: Result<string, KitError>)

  /** One exchange as the source handles it: `fetch` may throw, `json()` is read before
      `ok` is looked at (so an unparseable body throws whatever the status), and a
      non-2xx status throws an API error. */
  function Handle(exchange: Exchange): (r: Result<string, KitError>)
    ensures r.Success? <==> exchange.Reply? && exchange.body.Json? && StatusOk(exchange.status)
    ensures r.Success? ==> r.value == exchange.body.document
    ensures exchange.Reply? && exchange.body.Json? && !StatusOk(exchange.status) ==>
              r == Failure(ApiError(exchange.status))
  {
    match exchange
    case NetworkError => Failure(FetchFailed)
    case Reply(_, NotJson) => Failure(InvalidJson)
    case Reply(status, Json(document)) =>
      if StatusOk(status) then Success(document) else Failure(ApiError(status))
  }

  predicate Succeeds(exchange: Exchange)
  {
    Handle(exchange).Success?
  }

  /** The one key a plain object literal does not store as its own property. */
  const ProtoKey: string := "__proto__"

  /** `obj[key] = value` on a plain object literal such as `fields`. Every key becomes an
      own property holding `value`, except "__proto__": that assignment reaches the setter
      inherited from Object.prototype, which ignores a string, so nothing is stored. */
  function SetProperty(obj: map<string, string>, key: string, value: string): (r: map<string, string>)
    ensures key != ProtoKey ==> key in r && r[key] == value
    ensures key == ProtoKey ==> r == obj
    ensures r - {key} == obj - {key}
  {
    if key == ProtoKey then obj else obj[key := value]
  }

  /** A UTM entry the loop stores in `fields`: a non-empty value under a key other than "__proto__". */
  predicate Copied(entry: (string, string))
  {
    entry.1 != "" && entry.0 != ProtoKey
  }

  /** The loop over the UTM entries: each non-empty value is assigned, in order, so a later
      entry overwrites. It never removes a key, and never creates "__proto__". */
  function InsertNonEmpty(fields: map<string, string>, entries: seq<(string, string)>): (r: map<string, string>)
    ensures fields.Keys <= r.Keys
    ensures ProtoKey in r <==> ProtoKey in fields
    decreases |entries|
  {
    if entries == [] then fields
    else
      var (key, value) := entries[0];
      InsertNonEmpty(if value != "" then SetProperty(fields, key, value) else fields, entries[1..])
  }

  /** The `fields` record sent with the subscriber: `source` first, then the UTM entries.
      It always carries "source" and never "__proto__". */
  function Fields(source: string, utm: Option<seq<(string, string)>>): (r: map<string, string>)
    ensures "source" in r
    ensures ProtoKey !in r
  {
    var fields := map["source" := source];
    match utm
    case None => fields
    case Some(entries) => InsertNonEmpty(fields, entries)
  }

  /** The keys of the entries that the loop stores. */
  function CopiedKeys(entries: seq<(string, string)>): set<string>
  {
    set i | 0 <= i < |entries| && Copied(entries[i]) :: entries[i].0
  }

  lemma {:induction false} InsertNonEmptyKeys(fields: map<string, string>, entries: seq<(string, string)>)
    ensures InsertNonEmpty(fields, entries).Keys == fields.Keys + CopiedKeys(entries)
    decreases |entries|
  {
    if entries != [] {
      var (key, value) := entries[0];
      var next := if value != "" then SetProperty(fields, key, value) else fields;
      assert next.Keys == fields.Keys + (if Copied(entries[0]) then {key} else {});
      InsertNonEmptyKeys(next, entries[1..]);
      var rest := entries[1..];
      assert CopiedKeys(entries) == (if Copied(entries[0]) then {key} else {}) + CopiedKeys(rest) by {
        forall k | k in CopiedKeys(entries)
          ensures k in (if Copied(entries[0]) then {key} else {}) + CopiedKeys(rest)
        {
          var i :| 0 <= i < |entries| && Copied(entries[i]) && entries[i].0 == k;
          if i > 0 {
            assert rest[i - 1] == entries[i];
          }
        }
        forall k | k in CopiedKeys(rest) ensures k in CopiedKeys(entries) {
          var i :| 0 <= i < |rest| && Copied(rest[i]) && rest[i].0 == k;
          assert entries[i + 1] == rest[i];
        }
      }
    }
  }

  /** A key that no non-empty entry names keeps its value. */
  lemma {:induction false} InsertNonEmptyKeeps(fields: map<string, string>, entries: seq<(string, string)>, key: string)
    requires key in fields
    requires forall i | 0 <= i < |entries| :: entries[i].0 != key || entries[i].1 == ""
    ensures key in InsertNonEmpty(fields, entries) && InsertNonEmpty(fields, entries)[key] == fields[key]
    decreases |entries|
  {
    if entries != [] {
      var (k, v) := entries[0];
      var next := if v != "" then SetProperty(fields, k, v) else fields;
      assert key in next && next[key] == fields[key] by {
        if v != "" {
          assert key in fields - {k};
        }
      }
      var rest := entries[1..];
      assert forall i | 0 <= i < |rest| :: rest[i] == entries[i + 1];
      InsertNonEmptyKeeps(next, rest, key);
    }
  }

  /** A stored entry that no later non-empty entry with the same key follows gives the key its value. */
  lemma {:induction false} InsertNonEmptyLastWins(fields: map<string, string>, entries: seq<(string, string)>, i: nat)
    requires i < |entries| && Copied(entries[i])
    requires forall j | i < j < |entries| :: entries[j].0 != entries[i].0 || entries[j].1 == ""
    ensures entries[i].0 in InsertNonEmpty(fields, entries)
    ensures InsertNonEmpty(fields, entries)[entries[i].0] == entries[i].1
    decreases |entries|
  {
    var (k, v) := entries[0];
    var next := if v != "" then SetProperty(fields, k, v) else fields;
    var rest := entries[1..];
    assert forall j | 0 <= j < |rest| :: rest[j] == entries[j + 1];
    if i == 0 {
      InsertNonEmptyKeeps(next, rest, k);
    } else {
      InsertNonEmptyLastWins(next, rest, i - 1);
    }
  }

  /** A "__proto__" entry, wherever it stands, leaves the result as if it were absent. */
  lemma {:induction false} InsertNonEmptyIgnoresProto(fields: map<string, string>, before: seq<(string, string)>,
                                                        after: seq<(string, string)>, value: string)
    ensures InsertNonEmpty(fields, before + [(ProtoKey, value)] + after) == InsertNonEmpty(fields, before + after)
    decreases |before|
  {
    var all := before + [(ProtoKey, value)] + after;
    if before == [] {
      assert all[0] == (ProtoKey, value) && all[1..] == after && before + after == after;
      assert SetProperty(fields, ProtoKey, value) == fields;
      assert InsertNonEmpty(fields, all) == InsertNonEmpty(fields, after);
    } else {
      var (k, v) := before[0];
      var next := if v != "" then SetProperty(fields, k, v) else fields;
      assert all[0] == before[0] && all[1..] == before[1..] + [(ProtoKey, value)] + after;
      assert (before + after)[0] == before[0] && (before + after)[1..] == before[1..] + after;
      InsertNonEmptyIgnoresProto(next, before[1..], after, value);
    }
  }

  /** Without UTM data the fields are exactly {source}. */
  lemma FieldsWithoutUtm(source: string)
    ensures Fields(source, None) == map["source" := source]
  {
  }

  /** The fields hold `source` and the keys of the stored UTM entries (non-empty value, key
      other than "__proto__"), and nothing else. */
  lemma FieldsKeys(source: string, entries: seq<(string, string)>)
    ensures Fields(source, Some(entries)).Keys == {"source"} + CopiedKeys(entries)
  {
    InsertNonEmptyKeys(map["source" := source], entries);
  }

  /** A non-empty UTM entry is copied into the fields unless its key is "__proto__" or a later
      non-empty entry has the same key; in particular a non-empty UTM "source" overwrites the
      given source. */
  lemma FieldsUtmValue(source: string, entries: seq<(string, string)>, i: nat)
    requires i < |entries| && Copied(entries[i])
    requires forall j | i < j < |entries| :: entries[j].0 != entries[i].0 || entries[j].1 == ""
    ensures entries[i].0 in Fields(source, Some(entries))
    ensures Fields(source, Some(entries))[entries[i].0] == entries[i].1
  {
    InsertNonEmptyLastWins(map["source" := source], entries, i);
  }

  /** A UTM entry keyed "__proto__" is never copied: the fields are those built without it. */
  lemma FieldsIgnoreProtoEntry(source: string, entries: seq<(string, string)>, i: nat, value: string)
    requires i <= |entries|
    ensures Fields(source, Some(entries[..i] + [(ProtoKey, value)] + entries[i..])) == Fields(source, Some(entries))
  {
    InsertNonEmptyIgnoresProto(map["source" := source], entries[..i], entries[i..], value);
    assert entries[..i] + entries[i..] == entries;
  }

  /** The given source stays unless a non-empty UTM entry is keyed "source". */
  lemma FieldsSourceKept(source: string, utm: Option<seq<(string, string)>>)
    requires utm.Some? ==> forall i | 0 <= i < |utm.value| :: utm.value[i].0 != "source" || utm.value[i].1 == ""
    ensures "source" in Fields(source, utm) && Fields(source, utm)["source"] == source
  {
    if utm.Some? {
      InsertNonEmptyKeeps(map["source" := source], utm.value, "source");
    }
  }

  /** The loop of `subscribeToKit` that fills `fields`. */
  method BuildFields(source: string, utm: Option<seq<(string, string)>>) returns (fields: map<string, string>)
    ensures fields == Fields(source, utm)
  {
    fields := map["source" := source];
    if utm.Some? {
      var entries := utm.value;
      var i := 0;
      while i < |entries|
        invariant 0 <= i <= |entries|
        invariant InsertNonEmpty(fields, entries[i..]) == Fields(source, utm)
      {
        assert entries[i..][1..] == entries[i + 1..];
        var (key, value) := entries[i];
        if value != "" {
          fields := SetProperty(fields, key, value);
        }
        i := i + 1;
      }
      assert entries[i..] == [];
    }
  }

  /** `subscribeToKit(params)` in environment `env`, where the create-subscriber request
      ends as `created` and the add-to-form request ends as `enrolled`. */
  function SubscribeToKit(env: Env, params: SubscribeParams, created: Exchange, enrolled: Exchange): (run: Run)
    // without configuration it throws before any request
    ensures run.calls == [] <==> !Configured(env)
    ensures !Configured(env) ==> run.result == Failure(NotConfigured)
    // the first request creates the subscriber, with the email and the built fields
    ensures Configured(env) ==>
              run.calls[0] == CreateSubscriber(env.apiKey.value, params.email, Fields(params.source, params.utm))
    // the form request is made only after a successful create, and nothing follows it
    ensures |run.calls| <= 2
    ensures |run.calls| == 2 <==> Configured(env) && Succeeds(created)
    ensures |run.calls| == 2 ==> run.calls[1] == AddToForm(env.apiKey.value, env.formId.value, params.email)
    // a failed create is thrown as is
    ensures Configured(env) && !Succeeds(created) ==> run.result == Handle(created)
    // success needs both requests to succeed, and returns the form reply's document
    ensures run.result.Success? <==> Configured(env) && Succeeds(created) && Succeeds(enrolled)
    ensures run.result.Success? ==> run.result.value == enrolled.body.document
  {
    if !Configured(env) then Run([], Failure(NotConfigured))
    else
      var apiKey := env.apiKey.value;
      var create := CreateSubscriber(apiKey, params.email, Fields(params.source, params.utm));
      match Handle(created)
      case Failure(e) => Run([create], Failure(e))
      case Success(_) =>
        var enrol := AddToForm(apiKey, env.formId.value, params.email);
        Run([create, enrol], Handle(enrolled))
  }

  /** A failed form request leaves the subscriber created: both requests were made and
      nothing undoes the first. */
  lemma NoRollback(env: Env, params: SubscribeParams, created: Exchange, enrolled: Exchange)
    requires Configured(env) && Succeeds(created) && !Succeeds(enrolled)
    ensures var run := SubscribeToKit(env, params, created, enrolled);
      && run.result.Failure?
      && run.calls == [CreateSubscriber(env.apiKey.value, params.email, Fields(params.source, params.utm)),
                       AddToForm(env.apiKey.value, env.formId.value, params.email)]
  {
  }
}
