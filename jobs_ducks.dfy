/** The company-creation slice of the Redux store: three action types drive
    an object `{isLoading, errors, details?}`; every other action leaves it
    alone. Each handled action builds a new object with `Object.assign`,
    which on maps is `state + patch` (the patch's keys win). */
module JobsDucks {
  import opened JsValue

  const CREATE_COMPANY_REQUEST: string := "CREATE_COMPANY_REQUEST"
  const CREATE_COMPANY_SUCCESS: string := "CREATE_COMPANY_SUCCESS"
  const CREATE_COMPANY_FAILURE: string := "CREATE_COMPANY_FAILURE"

  const CREATE_JOB_REQUEST: string := "CREATE_JOB_REQUEST"
  const CREATE_JOB_SUCCESS: string := "CREATE_JOB_SUCCESS"
  const CREATE_JOB_FAILURE: string := "CREATE_JOB_FAILURE"

  /** The keys the reducer may write. */
  const SliceKeys: set<string> := {"isLoading", "errors", "details"}

  function InitialState(): Object
  {
    map["isLoading" := Bool(false), "errors" := Arr([])]
  }

  /** `action.type`, compared with `===` against the action constants. */
  function ActionType(action: Object): Value
  {
    Prop(action, "type")
  }

  /** True when `action.type` is one of the three company constants. */
  predicate Handled(action: Object)
  {
    ActionType(action) in {Str(CREATE_COMPANY_REQUEST), Str(CREATE_COMPANY_SUCCESS), Str(CREATE_COMPANY_FAILURE)}
  }

  /** `action.payload.data.company`, which throws when `payload` or `data` is
      `undefined` or `null`. */
  function SuccessCompany(action: Object): Result<Value>
  {
    match Get(Prop(action, "payload"), "data")
    case Throw(e) => Throw(e)
    case Ok(data) => Get(data, "company")
  }

  /** `action.errors.errors`, which throws when `errors` is `undefined` or
      `null`. */
  function FailureErrors(action: Object): Result<Value>
  {
    Get(Prop(action, "errors"), "errors")
  }

  /** The default-exported reducer. `state == None` is a call with an
      undefined state, which takes the default `initialState`. The result
      only ever writes the slice keys, and never throws on an action that
      is not a success or a failure. */
  function Reduce(state: Option<Object>, action: Object): (r: Result<Object>)
    ensures var s := if state.Some? then state.value else InitialState();
            r.Ok? ==> s.Keys <= r.value.Keys <= s.Keys + SliceKeys
                      && forall k :: k in s && k !in SliceKeys ==> r.value[k] == s[k]
    ensures r.Throw? ==> ActionType(action) in {Str(CREATE_COMPANY_SUCCESS), Str(CREATE_COMPANY_FAILURE)}
  {
    var s := if state.Some? then state.value else InitialState();
    var t := ActionType(action);
    if t == Str(CREATE_COMPANY_REQUEST) then
      Ok(s + map["isLoading" := Bool(true)])
    else if t == Str(CREATE_COMPANY_SUCCESS) then
      match SuccessCompany(action)
      case Throw(e) => Throw(e)
      case Ok(company) => Ok(s + map["isLoading" := Bool(false), "details" := company])
    else if t == Str(CREATE_COMPANY_FAILURE) then
      match FailureErrors(action)
      case Throw(e) => Throw(e)
      case Ok(errors) => Ok(s + map["isLoading" := Bool(false), "errors" := errors])
    else
      Ok(s)
  }

  /** The `createCompany(data)` action creator. */
  function CreateCompany(data: Value): (action: Object)
    ensures action.Keys == {"type", "payload"}
    ensures ActionType(action) == Str(CREATE_COMPANY_REQUEST)
    ensures action["payload"].Obj? && action["payload"].fields.Keys == {"data"}
    ensures Get(Prop(action, "payload"), "data") == Ok(data)
  {
    map["type" := Str(CREATE_COMPANY_REQUEST), "payload" := Obj(map["data" := data])]
  }

  /** The slice's shape that the company form relies on: a boolean loading
      flag and an `errors` entry. */
  predicate WellFormed(s: Object)
  {
    "isLoading" in s && s["isLoading"].Bool? && "errors" in s
  }

  lemma InitialStateShape()
    ensures InitialState().Keys == {"isLoading", "errors"}
    ensures InitialState()["isLoading"] == Bool(false)
    ensures InitialState()["errors"] == Arr([])
    ensures "details" !in InitialState()
    ensures WellFormed(InitialState())
  {
  }

  /** Omitting the state is the same as passing `initialState`. */
  lemma UndefinedStateIsInitial(action: Object)
    ensures Reduce(None, action) == Reduce(Some(InitialState()), action)
  {
  }

  /** REQUEST raises the loading flag and touches nothing else. */
  lemma RequestRaisesLoading(s: Object, action: Object)
    requires ActionType(action) == Str(CREATE_COMPANY_REQUEST)
    ensures Reduce(Some(s), action).Ok?
    ensures var r := Reduce(Some(s), action).value;
            r.Keys == s.Keys + {"isLoading"}
            && r["isLoading"] == Bool(true)
            && forall k :: k in s && k != "isLoading" ==> r[k] == s[k]
  {
  }

  /** Applying REQUEST twice is applying it once. */
  lemma RequestIdempotent(s: Object, action: Object)
    requires ActionType(action) == Str(CREATE_COMPANY_REQUEST)
    ensures Reduce(Some(s), action).Ok?
    ensures Reduce(Some(Reduce(Some(s), action).value), action) == Reduce(Some(s), action)
  {
    var once := Reduce(Some(s), action).value;
    assert once + map["isLoading" := Bool(true)] == once;
  }

  /** SUCCESS throws exactly when `payload` is not an object (reading
      `data` of anything else gives `undefined` or throws) or
      `payload.data` is nullish;
      otherwise it lowers the loading flag, stores the company as
      `details`, and keeps every other key, a stale `errors` list included. */
  lemma SuccessStoresCompany(s: Object, action: Object)
    requires ActionType(action) == Str(CREATE_COMPANY_SUCCESS)
    ensures var payload := Prop(action, "payload");
            Reduce(Some(s), action).Throw? <==>
              !payload.Obj? || IsNullish(Prop(payload.fields, "data"))
    ensures Reduce(Some(s), action).Ok? ==>
            var r := Reduce(Some(s), action).value;
            var data := Prop(action, "payload").fields["data"];
            r.Keys == s.Keys + {"isLoading", "details"}
            && r["isLoading"] == Bool(false)
            && r["details"] == (if data.Obj? then Prop(data.fields, "company") else Undefined)
            && forall k :: k in s && k !in {"isLoading", "details"} ==> r[k] == s[k]
  {
  }

  /** FAILURE throws exactly when `action.errors` is nullish; otherwise it
      lowers the loading flag, stores `action.errors.errors`, and keeps
      every other key, `details` included. */
  lemma FailureStoresErrors(s: Object, action: Object)
    requires ActionType(action) == Str(CREATE_COMPANY_FAILURE)
    ensures Reduce(Some(s), action).Throw? <==> IsNullish(Prop(action, "errors"))
    ensures Reduce(Some(s), action).Ok? ==>
            var r := Reduce(Some(s), action).value;
            var errs := Prop(action, "errors");
            r.Keys == s.Keys + {"isLoading", "errors"}
            && r["isLoading"] == Bool(false)
            && r["errors"] == (if errs.Obj? then Prop(errs.fields, "errors") else Undefined)
            && forall k :: k in s && k !in {"isLoading", "errors"} ==> r[k] == s[k]
  {
  }

  /** Every unhandled action returns the state as it was. */
  lemma OtherActionsKeepState(s: Object, action: Object)
    requires !Handled(action)
    ensures Reduce(Some(s), action) == Ok(s)
  {
  }

  /** The declared job constants are among the unhandled actions. */
  lemma JobActionsKeepState(s: Object, action: Object)
    requires ActionType(action) in {Str(CREATE_JOB_REQUEST), Str(CREATE_JOB_SUCCESS), Str(CREATE_JOB_FAILURE)}
    ensures Reduce(Some(s), action) == Ok(s)
  {
    OtherActionsKeepState(s, action);
  }

  /** Dispatching `createCompany(data)` raises the loading flag and changes
      nothing else, whatever the data. */
  lemma CreateCompanyRaisesLoading(s: Object, data: Value)
    ensures Reduce(Some(s), CreateCompany(data)) == Ok(s["isLoading" := Bool(true)])
  {
    var r := Reduce(Some(s), CreateCompany(data)).value;
    assert r == s["isLoading" := Bool(true)];
  }

  /** REQUEST then SUCCESS leaves the slice not loading, from any state. */
  lemma RequestThenSuccessNotLoading(s: Object, request: Object, success: Object)
    requires ActionType(request) == Str(CREATE_COMPANY_REQUEST)
    requires ActionType(success) == Str(CREATE_COMPANY_SUCCESS)
    ensures Reduce(Some(s), request).Ok?
    ensures var r := Reduce(Some(Reduce(Some(s), request).value), success);
            r.Ok? ==> r.value["isLoading"] == Bool(false)
  {
  }

  /** REQUEST then FAILURE leaves the slice not loading, from any state. */
  lemma RequestThenFailureNotLoading(s: Object, request: Object, failure: Object)
    requires ActionType(request) == Str(CREATE_COMPANY_REQUEST)
    requires ActionType(failure) == Str(CREATE_COMPANY_FAILURE)
    ensures Reduce(Some(s), request).Ok?
    ensures var r := Reduce(Some(Reduce(Some(s), request).value), failure);
            r.Ok? ==> r.value["isLoading"] == Bool(false)
  {
  }

  /** Every action that does not throw keeps the slice well formed, so every
      state reached from `initialState` has a boolean loading flag and an
      `errors` entry. */
  lemma ReducePreservesWellFormed(s: Object, action: Object)
    requires WellFormed(s)
    ensures Reduce(Some(s), action).Ok? ==> WellFormed(Reduce(Some(s), action).value)
  {
  }
}
