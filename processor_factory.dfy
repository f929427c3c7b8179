/** ProcessorFactory: maps the "action" of an upstream message to the
    processor that handles it. The lookup is stateless. */
module Processors {
  import opened Wrappers

  const Package: string := "org.codepond.fcmappserver"
  const ActionRegister: string := Package + ".REGISTER"
  const ActionMessage: string := Package + ".MESSAGE"

  /** The processors the factory can create. Their handleMessage bodies are
      not part of this model: only that one was invoked is recorded. */
  datatype PayloadProcessor = RegisterProcessor | MessageProcessor

  /** getProcessor: constant-first `equals`, so a null action matches nothing
      and ends in the "unknown action" exception like any other string. */
  function GetProcessor(action: Option<string>): (r: Result<PayloadProcessor, JavaException>)
    ensures r == Success(RegisterProcessor) <==> action == Some(ActionRegister)
    ensures r == Success(MessageProcessor) <==> action == Some(ActionMessage)
    ensures r.Failure? <==> action != Some(ActionRegister) && action != Some(ActionMessage)
    ensures r.Failure? ==> r.error.IllegalStateException?
    ensures action.Some? && r.Failure? ==> r.error.message == "Action " + action.value + " is unknown"
    ensures action == None ==> r == Failure(IllegalStateException("Action null is unknown"))
  {
    if action == Some(ActionRegister) then
      Success(RegisterProcessor)
    else if action == Some(ActionMessage) then
      Success(MessageProcessor)
    else
      assert "Action " + JavaString(None) + " is unknown" == "Action null is unknown";
      Failure(IllegalStateException("Action " + JavaString(action) + " is unknown"))
  }

  /** Both actions live under the package prefix, and they differ. */
  lemma ActionsAreDistinctPackageNames()
    ensures Package <= ActionRegister && ActionRegister[|Package|..] == ".REGISTER"
    ensures Package <= ActionMessage && ActionMessage[|Package|..] == ".MESSAGE"
    ensures ActionRegister != ActionMessage
  {
  }
}
