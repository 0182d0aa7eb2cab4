/**
 * `format_json_output`, defined identically in both utility modules: the
 * envelope every command prints.
 */
module Envelope {
  import opened Wrappers
  import opened PyJson

  /**
   * The dict passed to `json.dumps`: "status" always, "message" only for a
   * non-empty message, "data" whenever a payload is given, even an empty one.
   */
  function FormatJsonOutput(status: string, data: Option<Json>, message: Option<string>): (r: Dict)
    ensures r.Keys <= {"status", "message", "data"}
    ensures "status" in r && r["status"] == JStr(status)
    ensures "message" in r <==> message.Some? && message.value != ""
    ensures "message" in r ==> r["message"] == JStr(message.value)
    ensures "data" in r <==> data.Some?
    ensures "data" in r ==> r["data"] == data.value
  {
    var withStatus := map["status" := JStr(status)];
    var withMessage := if message.Some? && Truthy(JStr(message.value)) then withStatus["message" := JStr(message.value)] else withStatus;
    if data.Some? then withMessage["data" := data.value] else withMessage
  }
}
