/**
 * The chat side of the assistant view (src/components/AssistantView.js):
 * messages added when a voice turn completes (lines 59-82), and text
 * sending (lines 105-151). Sending is split at its `await`: SubmitText is
 * the part before the request, ReceiveReply and ReceiveFailure the parts
 * after it.
 */
module Chat {
  import opened Wrappers
  import opened Text
  import opened Jobs
  import opened Tools

  datatype Role = User | Assistant

  /** A chat message; its Date.now() id and timestamp are not modelled. */
  datatype Message = Message(role: Role, text: string)

  const TextServiceError := "Text service unavailable. Check your connection."

  // ------------------------------------------------------------ voice turns

  /** The messages handleVoiceMessage appends: the user's, then the assistant's, each only when non-empty. */
  function VoiceTurnMessages(userText: string, assistantText: string): (r: seq<Message>)
    ensures |r| <= 2
    ensures r == [] <==> userText == "" && assistantText == ""
    ensures forall i :: 0 <= i < |r| ==> r[i].text != ""
    ensures userText != "" ==> r[0] == Message(User, userText)
    ensures assistantText != "" ==> r[|r| - 1] == Message(Assistant, assistantText)
    ensures |r| == 2 ==> r[0].role == User && r[1].role == Assistant
  {
    (if userText != "" then [Message(User, userText)] else [])
    + (if assistantText != "" then [Message(Assistant, assistantText)] else [])
  }

  // --------------------------------------------------------- reply assembly

  /** One pass of the reply loop: the first result becomes the text, later ones are appended as actions. */
  function AddResult(text: string, result: string): string
  {
    if text == "" then result else text + "\n\n[Action: " + result + "]"
  }

  /** The reply text after folding the results, in order, into the response text. */
  function Assemble(text: string, results: seq<string>): string
    decreases |results|
  {
    if results == [] then text
    else AddResult(Assemble(text, results[..|results| - 1]), results[|results| - 1])
  }

  /** The action notes for a list of results, independent of the loop. */
  function ActionNotes(results: seq<string>): string
    decreases |results|
  {
    if results == [] then ""
    else ActionNotes(results[..|results| - 1]) + "\n\n[Action: " + results[|results| - 1] + "]"
  }

  /** Once the text is non-empty, every further result is appended as an action note. */
  lemma {:induction false} AssembleAfterText(text: string, results: seq<string>)
    requires text != ""
    ensures Assemble(text, results) == text + ActionNotes(results)
    decreases |results|
  {
    if results != [] {
      var init := results[..|results| - 1];
      AssembleAfterText(text, init);
      assert Assemble(text, init) != "";
    }
  }

  /** Folding a concatenation folds its halves one after the other. */
  lemma {:induction false} AssembleAppend(text: string, a: seq<string>, b: seq<string>)
    ensures Assemble(text, a + b) == Assemble(Assemble(text, a), b)
    decreases |b|
  {
    if b == [] {
      assert a + b == a;
    } else {
      assert (a + b)[..|a + b| - 1] == a + b[..|b| - 1];
      AssembleAppend(text, a, b[..|b| - 1]);
    }
  }

  /** Results folded into an empty text stay empty while they are empty. */
  lemma {:induction false} AssembleAllEmpty(results: seq<string>)
    requires forall i :: 0 <= i < |results| ==> results[i] == ""
    ensures Assemble("", results) == ""
    decreases |results|
  {
    if results != [] {
      AssembleAllEmpty(results[..|results| - 1]);
    }
  }

  /**
   * With no response text, the first non-empty result becomes the reply and
   * every later result is appended as an action note; with none, the reply
   * is empty.
   */
  lemma AssembleWithoutText(results: seq<string>, k: nat)
    requires k < |results| && results[k] != ""
    requires forall i :: 0 <= i < k ==> results[i] == ""
    ensures Assemble("", results) == results[k] + ActionNotes(results[k + 1..])
  {
    assert results == results[..k] + [results[k]] + results[k + 1..];
    AssembleAllEmpty(results[..k]);
    AssembleAppend("", results[..k], [results[k]]);
    assert Assemble("", [results[k]]) == results[k];
    AssembleAppend("", results[..k] + [results[k]], results[k + 1..]);
    AssembleAfterText(results[k], results[k + 1..]);
  }

  // ----------------------------------------------------- running the calls

  /** The results of the function-call parts, in order, and the list they leave. */
  datatype Run = Run(results: seq<string>, apps: seq<Job>)

  /** The tool calls of a reply, run one after the other; a part without a call is skipped. */
  function RunCalls(apps: seq<Job>, parts: seq<Option<FunctionCall>>, freshIds: seq<string>): (r: Run)
    requires |freshIds| == |parts|
    ensures |r.results| <= |parts|
    decreases |parts|
  {
    if parts == [] then Run([], apps)
    else match parts[0]
      case None => RunCalls(apps, parts[1..], freshIds[1..])
      case Some(fc) =>
        var o := ToolOutcome(apps, fc, freshIds[0]);
        var rest := RunCalls(o.apps, parts[1..], freshIds[1..]);
        Run([o.result] + rest.results, rest.apps)
  }

  /** One result per part that carries a call. */
  function CallCount(parts: seq<Option<FunctionCall>>): nat
  {
    if parts == [] then 0 else (if parts[0].Some? then 1 else 0) + CallCount(parts[1..])
  }

  lemma {:induction false} RunCallsOneResultPerCall(apps: seq<Job>, parts: seq<Option<FunctionCall>>, freshIds: seq<string>)
    requires |freshIds| == |parts|
    ensures |RunCalls(apps, parts, freshIds).results| == CallCount(parts)
    decreases |parts|
  {
    if parts != [] {
      match parts[0]
      case None =>
        RunCallsOneResultPerCall(apps, parts[1..], freshIds[1..]);
      case Some(fc) =>
        RunCallsOneResultPerCall(ToolOutcome(apps, fc, freshIds[0]).apps, parts[1..], freshIds[1..]);
    }
  }

  /** Ids for the records a reply may create: non-empty, unused and pairwise distinct. */
  predicate FreshIds(apps: seq<Job>, ids: seq<string>)
  {
    FreshFrom(apps, ids, 0) && Distinct(ids)
  }

  /** The ids from position i on are all unused. */
  predicate FreshFrom(apps: seq<Job>, ids: seq<string>, i: nat)
  {
    forall k :: i <= k < |ids| ==> FreshId(apps, ids[k])
  }

  predicate Distinct(ids: seq<string>)
  {
    forall k, m :: 0 <= k < m < |ids| ==> ids[k] != ids[m]
  }

  /** A step that adds at most id i leaves the later ids unused. */
  lemma FreshFromStep(apps: seq<Job>, next: seq<Job>, ids: seq<string>, i: nat)
    requires i < |ids| && FreshFrom(apps, ids, i) && Distinct(ids)
    requires Ids(next) <= Ids(apps) + {ids[i]}
    ensures FreshFrom(next, ids, i + 1)
  {
    forall k | i + 1 <= k < |ids|
      ensures FreshId(next, ids[k])
    {
      assert ids[k] != ids[i];
    }
  }

  /** The loop of handleSendText, one call further: the pending run is the rest of the whole run. */
  lemma RunCallsStep(apps0: seq<Job>, parts: seq<Option<FunctionCall>>, ids: seq<string>, i: nat,
                     results: seq<string>, apps: seq<Job>, result: string, next: seq<Job>)
    requires |ids| == |parts| && i < |parts| && parts[i].Some?
    requires Outcome(result, next) == ToolOutcome(apps, parts[i].value, ids[i])
    requires var rest := RunCalls(apps, parts[i..], ids[i..]);
      RunCalls(apps0, parts, ids) == Run(results + rest.results, rest.apps)
    ensures var rest := RunCalls(next, parts[i + 1..], ids[i + 1..]);
      RunCalls(apps0, parts, ids) == Run(results + [result] + rest.results, rest.apps)
  {
    assert parts[i..][1..] == parts[i + 1..] && ids[i..][1..] == ids[i + 1..];
    var rest := RunCalls(next, parts[i + 1..], ids[i + 1..]);
    assert results + [result] + rest.results == results + ([result] + rest.results);
  }

  /** A part without a call adds no result and changes no record. */
  lemma RunCallsSkip(apps0: seq<Job>, parts: seq<Option<FunctionCall>>, ids: seq<string>, i: nat,
                     results: seq<string>, apps: seq<Job>)
    requires |ids| == |parts| && i < |parts| && parts[i].None?
    requires var rest := RunCalls(apps, parts[i..], ids[i..]);
      RunCalls(apps0, parts, ids) == Run(results + rest.results, rest.apps)
    ensures var rest := RunCalls(apps, parts[i + 1..], ids[i + 1..]);
      RunCalls(apps0, parts, ids) == Run(results + rest.results, rest.apps)
  {
    assert parts[i..][1..] == parts[i + 1..] && ids[i..][1..] == ids[i + 1..];
  }

  lemma AssembleStep(text: string, results: seq<string>, result: string)
    ensures Assemble(text, results + [result]) == AddResult(Assemble(text, results), result)
  {
    assert (results + [result])[..|results|] == results;
  }

  // ------------------------------------------------------------ the view

  class ChatView {
    var messages: seq<Message>
    var textInput: string
    var isTextThinking: bool
    var error: Option<string>

    constructor ()
      ensures messages == [] && textInput == "" && !isTextThinking && error == None
    {
      messages := [];
      textInput := "";
      isTextThinking := false;
      error := None;
    }

    /** handleVoiceMessage(userText, assistantText). */
    method OnVoiceTurn(userText: string, assistantText: string)
      modifies this
      ensures messages == old(messages) + VoiceTurnMessages(userText, assistantText)
      ensures textInput == old(textInput) && isTextThinking == old(isTextThinking) && error == old(error)
    {
      if userText != "" {
        messages := messages + [Message(User, userText)];
      }
      if assistantText != "" {
        messages := messages + [Message(Assistant, assistantText)];
      }
    }

    /** handleError(message): the error banner shows the message. */
    method ReportError(message: string)
      modifies this
      ensures error == Some(message)
      ensures messages == old(messages) && textInput == old(textInput) && isTextThinking == old(isTextThinking)
    {
      error := Some(message);
    }

    /**
     * handleSendText up to the request: nothing happens when the trimmed
     * input is empty or a request is in flight; otherwise the trimmed text is
     * sent as a user message and the input is cleared.
     */
    method SubmitText() returns (sent: Option<string>)
      modifies this
      ensures Trim(old(textInput)) == "" || old(isTextThinking) ==>
        sent == None && unchanged(this)
      ensures Trim(old(textInput)) != "" && !old(isTextThinking) ==>
        && sent == Some(Trim(old(textInput)))
        && messages == old(messages) + [Message(User, Trim(old(textInput)))]
        && textInput == "" && isTextThinking && error == old(error)
    {
      if Trim(textInput) == "" || isTextThinking {
        return None;
      }
      var userMsg := Trim(textInput);
      textInput := "";
      isTextThinking := true;
      messages := messages + [Message(User, userMsg)];
      sent := Some(userMsg);
    }

    /**
     * handleSendText after a reply: every part carrying a function call is
     * run through the dispatcher in order, the results are folded into the
     * response text, and the assistant message is appended.
     */
    method ReceiveReply(store: JobStore, responseText: string, parts: seq<Option<FunctionCall>>, freshIds: seq<string>)
      requires store.Valid() && |freshIds| == |parts| && FreshIds(store.apps, freshIds)
      modifies this, store
      ensures store.Valid()
      ensures var run := RunCalls(old(store.apps), parts, freshIds);
        && store.apps == run.apps
        && messages == old(messages) + [Message(Assistant, Assemble(responseText, run.results))]
      ensures !isTextThinking && textInput == old(textInput) && error == old(error)
    {
      ghost var apps0 := store.apps;
      ghost var results: seq<string> := [];
      var assistantText := responseText;
      assert parts[0..] == parts && freshIds[0..] == freshIds;
      for i := 0 to |parts|
        invariant store.Valid()
        invariant FreshFrom(store.apps, freshIds, i) && Distinct(freshIds)
        invariant var rest := RunCalls(store.apps, parts[i..], freshIds[i..]);
          RunCalls(apps0, parts, freshIds) == Run(results + rest.results, rest.apps)
        invariant assistantText == Assemble(responseText, results)
        invariant messages == old(messages) && textInput == old(textInput) && error == old(error)
      {
        ghost var before := store.apps;
        if parts[i].Some? {
          var result := HandleToolCall(store, parts[i].value, freshIds[i]);
          ToolIds(before, parts[i].value, freshIds[i]);
          FreshFromStep(before, store.apps, freshIds, i);
          RunCallsStep(apps0, parts, freshIds, i, results, before, result, store.apps);
          AssembleStep(responseText, results, result);
          results := results + [result];
          assistantText := AddResult(assistantText, result);
        } else {
          RunCallsSkip(apps0, parts, freshIds, i, results, before);
        }
      }
      assert results + [] == results;
      messages := messages + [Message(Assistant, assistantText)];
      isTextThinking := false;
    }

    /** handleSendText when the request fails: the service error is shown and sending is enabled again. */
    method ReceiveFailure()
      modifies this
      ensures error == Some(TextServiceError) && !isTextThinking
      ensures messages == old(messages) && textInput == old(textInput)
    {
      error := Some(TextServiceError);
      isTextThinking := false;
    }
  }
}
