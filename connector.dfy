/** The connector platform as the services see it: one `execute_action` entry point whose
    reply is either a value of unstable shape or a raised exception, the ordered checklist
    of success indicators every send walks, the error-text extraction that follows a
    failed checklist, and the action-name fallback chain. */
module Connector {
  import opened Wrappers
  import opened PyValues

  /** A raised exception, as far as the services use it: the text of `str(e)`. */
  datatype Exception = Exception(message: string)

  /** One `execute_action(action, params[, entity_id=entity])` invocation. */
  datatype Call = Call(action: string, params: map<string, Value>, entity: Option<string>)

  /** What the connector does with a call: reply with a value, or raise. */
  type Execute = Call -> Result<Value, Exception>

  /** The normalised `{"success": True, "message": …}` / `{"success": False, "error": …}`. */
  datatype Outcome = Succeeded(message: string) | Failed(error: string)

  /** The six ways a reply may say "success". */
  datatype Indicator =
    | AttrSuccessfull   // hasattr(r, 'successfull') and r.successfull
    | AttrSuccess       // hasattr(r, 'success') and r.success
    | AttrData          // hasattr(r, 'data') and r.data
    | KeySuccessfull    // isinstance(r, dict) and r.get('successfull')
    | KeySuccess        // isinstance(r, dict) and r.get('success')
    | KeyData           // isinstance(r, dict) and 'data' in r and r['data']

  /** The order in which the mail, chat and messaging-app sends probe the indicators. */
  const Checklist: seq<Indicator> :=
    [AttrSuccessfull, AttrSuccess, AttrData, KeySuccessfull, KeySuccess, KeyData]

  /** The professional-network operations probe only the three attribute indicators. */
  const AttrChecklist: seq<Indicator> := [AttrSuccessfull, AttrSuccess, AttrData]

  predicate Holds(v: Value, i: Indicator) {
    match i
    case AttrSuccessfull => HasAttr(v, "successfull") && Truthy(v.attrs["successfull"])
    case AttrSuccess => HasAttr(v, "success") && Truthy(v.attrs["success"])
    case AttrData => HasAttr(v, "data") && Truthy(v.attrs["data"])
    case KeySuccessfull => v.Dict? && Truthy(Get(v.entries, "successfull", Null))
    case KeySuccess => v.Dict? && Truthy(Get(v.entries, "success", Null))
    case KeyData => v.Dict? && "data" in v.entries && Truthy(v.entries["data"])
  }

  /** The `if/elif` chain: the position of the first indicator of `list` that holds. */
  function FirstHolding(v: Value, list: seq<Indicator>): (r: Option<nat>)
    ensures r.Some? ==> r.value < |list| && Holds(v, list[r.value])
    ensures r.Some? ==> forall k :: 0 <= k < r.value ==> !Holds(v, list[k])
    ensures r.None? ==> forall k :: 0 <= k < |list| ==> !Holds(v, list[k])
  {
    if list == [] then None
    else if Holds(v, list[0]) then Some(0)
    else match FirstHolding(v, list[1..])
      case None => None
      case Some(k) => Some(k + 1)
  }

  /** `if response:` followed by the chain over `list`. */
  predicate Passes(v: Value, list: seq<Indicator>) {
    Truthy(v) && FirstHolding(v, list).Some?
  }

  /** The outer `if response:` never decides anything: a reply satisfying any indicator is
      truthy, so the checklist passes exactly when one of its indicators holds. */
  lemma PassesIffSomeIndicator(v: Value, list: seq<Indicator>)
    ensures Passes(v, list) <==> exists k :: 0 <= k < |list| && Holds(v, list[k])
  {
    if k :| 0 <= k < |list| && Holds(v, list[k]) {
      assert Truthy(v) by {
        match list[k]
        case KeySuccessfull => assert "successfull" in v.entries;
        case KeySuccess => assert "success" in v.entries;
        case KeyData =>
        case AttrSuccessfull =>
        case AttrSuccess =>
        case AttrData =>
      }
    }
  }

  /** The attribute-only checklist never accepts a dictionary reply. */
  lemma AttrChecklistNeedsObject(v: Value)
    requires Passes(v, AttrChecklist)
    ensures v.Obj?
  {
  }

  /** The attribute-only checklist accepts a subset of what the full checklist accepts. */
  lemma AttrChecklistStricter(v: Value)
    requires Passes(v, AttrChecklist)
    ensures Passes(v, Checklist)
  {
    var k := FirstHolding(v, AttrChecklist).value;
    assert Holds(v, Checklist[k]);
  }

  /** The error a failed reply carries: the `error` attribute, else the `error` key, else None. */
  function ErrorValue(v: Value): Value {
    if HasAttr(v, "error") then v.attrs["error"]
    else if v.Dict? && "error" in v.entries then v.entries["error"]
    else Null
  }

  /** `f"{error_message or fallback}"`. */
  function ErrorText(v: Value, fallback: string): (r: string)
    ensures Truthy(ErrorValue(v)) ==> r == Show(ErrorValue(v))
    ensures !Truthy(ErrorValue(v)) ==> r == fallback
  {
    if Truthy(ErrorValue(v)) then Show(ErrorValue(v)) else fallback
  }

  /** Normalised result of an integration setup attempt: a redirect URL when the user
      still has to authenticate. */
  datatype SetupResult = SetupResult(success: bool, message: string, redirectUrl: Option<Value>)

  const UnknownFormat: string := "Unknown error in response format"

  /** A connector call went through when it did not raise and its reply passes the six-way checklist. */
  predicate Delivered(reply: Result<Value, Exception>) {
    reply.Ok? && Passes(reply.value, Checklist)
  }

  /** The tail shared by every six-indicator send: `success` on a passing reply, the
      reply's error (or the format fallback) after `failedPrefix` otherwise, and the
      exception text after `raisedPrefix` when the call raised. */
  function SixWay(reply: Result<Value, Exception>, success: string, failedPrefix: string, raisedPrefix: string): (r: Outcome)
    ensures r.Succeeded? <==> Delivered(reply)
    ensures r.Succeeded? <==> reply.Ok? && exists k :: 0 <= k < |Checklist| && Holds(reply.value, Checklist[k])
    ensures r.Succeeded? ==> r.message == success
    ensures reply.Err? ==> r == Failed(raisedPrefix + reply.error.message)
    ensures reply.Ok? && r.Failed? ==> r.error == failedPrefix + ErrorText(reply.value, UnknownFormat)
  {
    match reply
    case Err(e) => Failed(raisedPrefix + e.message)
    case Ok(v) =>
      PassesIffSomeIndicator(v, Checklist);
      if Passes(v, Checklist) then Succeeded(success)
      else Failed(failedPrefix + ErrorText(v, UnknownFormat))
  }

  /** The nested try/except chain: call each action name in order with the same
      parameters, move on only when the call raises, and let the last one's exception
      propagate. */
  function FirstNonRaising(names: seq<string>, params: map<string, Value>, execute: Execute): (r: Result<Value, Exception>)
    requires names != []
    ensures r.Ok? <==> exists k :: 0 <= k < |names| && execute(Call(names[k], params, None)).Ok?
    ensures r.Ok? ==> exists k :: 0 <= k < |names| && r == execute(Call(names[k], params, None))
                                && forall j :: 0 <= j < k ==> execute(Call(names[j], params, None)).Err?
    ensures r.Err? ==> r == execute(Call(names[|names| - 1], params, None))
  {
    var reply := execute(Call(names[0], params, None));
    if reply.Ok? || |names| == 1 then reply
    else
      var rest := FirstNonRaising(names[1..], params, execute);
      assert forall k :: 1 <= k < |names| ==> names[k] == names[1..][k - 1];
      rest
  }
}
