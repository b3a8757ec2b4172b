/** From a provider's native tool calls to the calls stored on an assistant row. */
module Bridge {
  import opened Text
  import opened Messages

  datatype NativeCall = NativeCall(name: string, id: Option<string>, arguments: string, thoughtSignature: string)

  datatype ParsedToolCall = ParsedToolCall(
    toolName: string,
    arguments: string,
    toolCallId: Option<string>,
    thoughtSignature: string,
    modelFacing: Option<NativeCall>)

  function ToParsedToolCall(call: NativeCall): ParsedToolCall {
    var name := if Strip(call.name) == "" then "unknown_tool" else Strip(call.name);
    var id := NormalizeOptional(call.id);
    var signature := Strip(call.thoughtSignature);
    ParsedToolCall(
      name, call.arguments, id, signature,
      if Strip(call.name) == "" then None else Some(NativeCall(name, id, call.arguments, signature)))
  }

  function HistoryCall(call: ParsedToolCall, index: nat): ToolCall {
    var ownId := NormalizeOptional(call.toolCallId);
    var id := if ownId.Some? then ownId.value else "tool_call_" + Digits(index);
    match call.modelFacing
    case None => ToolCall(id, call.toolName, call.arguments, Strip(call.thoughtSignature))
    case Some(model) =>
      var modelId := NormalizeOptional(model.id);
      ToolCall(
        if modelId.Some? then modelId.value else id,
        if Strip(model.name) == "" then call.toolName else Strip(model.name),
        model.arguments,
        Strip(model.thoughtSignature))
  }

  function HistoryCalls(calls: seq<ParsedToolCall>): seq<ToolCall> {
    seq(|calls|, k requires 0 <= k < |calls| => HistoryCall(calls[k], k))
  }

  method ToHistoryToolCalls(calls: seq<ParsedToolCall>) returns (history: seq<ToolCall>)
    ensures history == HistoryCalls(calls)
  {
    history := [];
    for index := 0 to |calls|
      invariant history == HistoryCalls(calls)[..index]
    {
      history := history + [HistoryCall(calls[index], index)];
    }
  }

  /** Every stored call has a trimmed, non-empty id. */
  lemma HistoryIdIsTrimmed(call: ParsedToolCall, index: nat)
    ensures HistoryCall(call, index).id != "" && Trimmed(HistoryCall(call, index).id)
  {
    if call.toolCallId.Some? {
      StripTrims(call.toolCallId.value);
    }
    if call.modelFacing.Some? && call.modelFacing.value.id.Some? {
      StripTrims(call.modelFacing.value.id.value);
    }
  }

  /** The ids collected for staging are exactly the ids stored on the assistant row, in order. */
  method ExtractHistoryToolCallIds(ghost parsed: seq<ParsedToolCall>, history: seq<ToolCall>) returns (ids: seq<string>)
    requires history == HistoryCalls(parsed)
    ensures ids == CallIds(history)
    ensures forall k :: 0 <= k < |ids| ==> ids[k] != ""
  {
    ids := [];
    for k := 0 to |history|
      invariant ids == CallIds(history)[..k]
      invariant forall n :: 0 <= n < k ==> ids[n] != ""
    {
      HistoryIdIsTrimmed(parsed[k], k);
      TrimmedIsFixed(history[k].id);
      var candidate := NormalizeOptional(Some(history[k].id));
      if candidate.Some? {
        ids := ids + [candidate.value];
      }
    }
  }

  /** Bridging keeps the provider's id, name and arguments, and fills in what is missing. */
  lemma BridgeKeepsCall(call: NativeCall, index: nat)
    ensures var stored := HistoryCall(ToParsedToolCall(call), index);
            && stored.id == (match NormalizeOptional(call.id) case Some(id) => id case None => "tool_call_" + Digits(index))
            && stored.name == (if Strip(call.name) == "" then "unknown_tool" else Strip(call.name))
            && stored.arguments == call.arguments
            && stored.thoughtSignature == Strip(call.thoughtSignature)
  {
    NormalizeOptionalTwice(call.id);
    StripTrims(call.name);
    StripTrims(call.thoughtSignature);
  }

  /**
   * What is stored of a parsed call: the id, name, arguments and signature of the model-facing call where it has them,
   * and else the call's own; without any id the position gives one.
   */
  lemma ModelFacingWins(call: ParsedToolCall, index: nat)
    ensures var stored, model := HistoryCall(call, index), call.modelFacing;
            && stored.id == (if model.Some? && model.value.id.Some? && !AllSpace(model.value.id.value) then Strip(model.value.id.value)
                             else if call.toolCallId.Some? && !AllSpace(call.toolCallId.value) then Strip(call.toolCallId.value)
                             else "tool_call_" + Digits(index))
            && stored.name == (if model.Some? && !AllSpace(model.value.name) then Strip(model.value.name) else call.toolName)
            && stored.arguments == (if model.Some? then model.value.arguments else call.arguments)
            && stored.thoughtSignature == Strip(if model.Some? then model.value.thoughtSignature else call.thoughtSignature)
  {
    if call.toolCallId.Some? {
      BlankIffSpace(call.toolCallId.value);
    }
    if call.modelFacing.Some? {
      BlankIffSpace(call.modelFacing.value.name);
      if call.modelFacing.value.id.Some? {
        BlankIffSpace(call.modelFacing.value.id.value);
      }
    }
    hide Strip, AllSpace, Digits;
  }

  /** Two turns whose calls carry no id issue the same ids, so ids alone do not identify a call. */
  lemma MissingIdsRepeat(first: NativeCall, second: NativeCall, index: nat)
    requires NormalizeOptional(first.id).None? && NormalizeOptional(second.id).None?
    ensures HistoryCall(ToParsedToolCall(first), index).id == HistoryCall(ToParsedToolCall(second), index).id
  {
    BridgeKeepsCall(first, index);
    BridgeKeepsCall(second, index);
  }
}
