/**
  The reply of one agent turn (src/core/entity/response.py). Its fields are
  set once; `is_success`, `get_message` and `get_error` read them back.
*/
module Responses {
  import opened Wrappers

  /** `AgentResponse`: success defaults to true and the error to None. */
  datatype AgentResponse = AgentResponse(message: string, success: bool := true, error: Option<string> := None) {

    /** True when `__str__` shows the error: Python's `if self.error` is false for None and "". */
    predicate ShowsError() {
      error.Some? && error.value != ""
    }

    /** `__str__`: "Error: " and the error when there is one, the message otherwise. */
    function ToString(): (r: string)
      ensures ShowsError() ==> |r| == 7 + |error.value| && r[..7] == "Error: " && r[7..] == error.value
      ensures !ShowsError() ==> r == message
    {
      if ShowsError() then "Error: " + error.value else message
    }
  }

  /** A response built with the defaults is a success without error, shown as its message. */
  lemma DefaultResponse(message: string)
    ensures AgentResponse(message).success && AgentResponse(message).error == None
    ensures AgentResponse(message).ToString() == message
  {
  }

  /** A shown error always carries the "Error: " marker, so it can be told apart from a plain message. */
  lemma ErrorRendering(r: AgentResponse)
    requires r.ShowsError()
    ensures r.ToString() != r.error.value
  {
    assert |r.ToString()| == 7 + |r.error.value|;
  }
}
