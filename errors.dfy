/** The application's exception hierarchy and its wire form (src/exceptions.py).
    An exception is a value: its class, message, code and keyword context.
    Each constructor takes the keyword arguments that land in **context; a
    key that names one of the constructor's own parameters (such as
    "message") is bound to that parameter by Python and never reaches
    **context, which the constructors' preconditions record. */
module Errors {
  import opened Wrappers

  /** A context value: text, or anything else (numbers, nested objects). */
  datatype Val = Text(s: string) | Opaque(n: int)

  datatype ErrorClass = Base | Validation | HealthCheck | Monitoring | Security

  datatype AppError = AppError(cls: ErrorClass, message: string, code: Val, context: map<string, Val>)

  /** The {"type": ..., "data": {...}} dictionary sent to clients. */
  datatype ErrorDict = ErrorDict(kind: string, data: map<string, Val>)

  /** The TypeError Python raises when a keyword argument arrives twice. */
  datatype ConstructionError = DuplicateKeyword(name: string)

  const InternalError: string := "INTERNAL_ERROR"
  const ValidationCode: string := "VALIDATION_ERROR"
  const HealthCheckCode: string := "HEALTH_CHECK_FAILED"
  const MonitoringCode: string := "MONITORING_ERROR"
  const SecurityCode: string := "SECURITY_VIOLATION"

  /** RealtimeVoiceChatException(message, code="INTERNAL_ERROR", **context). */
  function NewError(message: string, code: Option<Val>, context: map<string, Val>): (e: AppError)
    requires "message" !in context && "code" !in context
    ensures e.cls == Base && e.message == message && e.context == context
    ensures code.None? ==> e.code == Text(InternalError)
  {
    AppError(Base, message, code.GetOr(Text(InternalError)), context)
  }

  /** to_dict: the code and message, then every context entry except "message". */
  function ToDict(e: AppError): (r: ErrorDict)
    ensures r.kind == "error"
    ensures r.data.Keys == {"code", "message"} + (e.context.Keys - {"message"})
    ensures r.data["message"] == Text(e.message)
    ensures "code" !in e.context ==> r.data["code"] == e.code
    ensures forall k :: k in e.context && k != "message" ==> r.data[k] == e.context[k]
  {
    var own := map k | k in e.context && k != "message" :: e.context[k];
    ErrorDict("error", map["code" := e.code, "message" := Text(e.message)] + own)
  }

  /** Python truthiness of an optional string. */
  predicate Truthy(field: Option<string>)
  {
    field.Some? && field.value != ""
  }

  /** ValidationError(message, field=None, **context): a "code" keyword is taken
      out of the context and used as the code; a truthy field is added to it. */
  function NewValidationError(message: string, field: Option<string>, context: map<string, Val>): (e: AppError)
    requires "message" !in context && "field" !in context
    ensures e.cls == Validation && e.message == message
    ensures e.code == if "code" in context then context["code"] else Text(ValidationCode)
    ensures "code" !in e.context
    ensures "field" in e.context <==> Truthy(field)
    ensures Truthy(field) ==> e.context["field"] == Text(field.value)
    ensures forall k :: k in context && k != "code" ==> k in e.context && e.context[k] == context[k]
    ensures e.context.Keys <= context.Keys + {"field"}
  {
    var code := if "code" in context then context["code"] else Text(ValidationCode);
    var rest := context - {"code"};
    var withField := if Truthy(field) then rest["field" := Text(field.value)] else rest;
    AppError(Validation, message, code, withField)
  }

  /** The subclasses that pass a fixed code and one named context entry; a
      "code" keyword of the caller's collides with it and raises TypeError. */
  function WithFixedCode(cls: ErrorClass, code: string, key: string, value: string,
                         message: string, context: map<string, Val>): (r: Result<AppError, ConstructionError>)
    requires "message" !in context && key !in context
    ensures r.Err? <==> "code" in context
    ensures r.Err? ==> r.error == DuplicateKeyword("code")
    ensures r.Ok? ==> r.value.cls == cls && r.value.message == message && r.value.code == Text(code)
    ensures r.Ok? ==> r.value.context == context[key := Text(value)]
  {
    if "code" in context then Err(DuplicateKeyword("code"))
    else Ok(AppError(cls, message, Text(code), context[key := Text(value)]))
  }

  /** HealthCheckError(component, message, **context). */
  function NewHealthCheckError(component: string, message: string, context: map<string, Val>): (r: Result<AppError, ConstructionError>)
    requires "message" !in context && "component" !in context
    ensures r.Ok? <==> "code" !in context
    ensures r.Ok? ==> r.value.code == Text(HealthCheckCode) && r.value.context == context["component" := Text(component)]
  {
    WithFixedCode(HealthCheck, HealthCheckCode, "component", component, message, context)
  }

  /** MonitoringError(metric, message, **context). */
  function NewMonitoringError(metric: string, message: string, context: map<string, Val>): (r: Result<AppError, ConstructionError>)
    requires "message" !in context && "metric" !in context
    ensures r.Ok? <==> "code" !in context
    ensures r.Ok? ==> r.value.code == Text(MonitoringCode) && r.value.context == context["metric" := Text(metric)]
  {
    WithFixedCode(Monitoring, MonitoringCode, "metric", metric, message, context)
  }

  /** SecurityViolation(message, violation_type, **context). */
  function NewSecurityViolation(message: string, violationType: string, context: map<string, Val>): (r: Result<AppError, ConstructionError>)
    requires "message" !in context && "violation_type" !in context
    ensures r.Ok? <==> "code" !in context
    ensures r.Ok? ==> r.value.code == Text(SecurityCode) && r.value.context == context["violation_type" := Text(violationType)]
  {
    WithFixedCode(Security, SecurityCode, "violation_type", violationType, message, context)
  }

  /** Every exception the constructors build is serialised with its own code
      and message, and with its context entries alongside. */
  lemma WireFormKeepsCodeAndMessage(e: AppError)
    requires "code" !in e.context
    ensures ToDict(e).data["code"] == e.code && ToDict(e).data["message"] == Text(e.message)
    ensures forall k :: k in e.context && k != "message" ==> k in ToDict(e).data
  {
  }

  /** The validation error's wire form: its code, and "field" exactly when a truthy field was given. */
  lemma ValidationWireForm(message: string, field: Option<string>, context: map<string, Val>)
    requires "message" !in context && "field" !in context
    ensures var d := ToDict(NewValidationError(message, field, context)).data;
      d["code"] == (if "code" in context then context["code"] else Text(ValidationCode)) &&
      d["message"] == Text(message) &&
      ("field" in d <==> Truthy(field))
  {
    var e := NewValidationError(message, field, context);
    assert "code" !in e.context;
  }

  /** The fixed-code subclasses: code and named entry on the wire, e.g. a
      health-check failure carries HEALTH_CHECK_FAILED and its component. */
  lemma HealthCheckWireForm(component: string, message: string, context: map<string, Val>)
    requires "message" !in context && "component" !in context && "code" !in context
    ensures NewHealthCheckError(component, message, context).Ok?
    ensures var d := ToDict(NewHealthCheckError(component, message, context).value).data;
      d["code"] == Text(HealthCheckCode) && d["component"] == Text(component) && d["message"] == Text(message)
  {
    var e := NewHealthCheckError(component, message, context).value;
    assert "code" !in e.context;
  }
}
