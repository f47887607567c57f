/** The image service's `/generate` endpoint. It reads a description from the JSON body,
    wraps it in a fixed logo prompt, asks the image model, and answers with the data of the
    first reply part that carries inline data. The model's reply, whether the request body
    could be read, and whether saving the image to disk succeeds are parameters. */
module ImageService {
  import opened Wrappers

  const PromptPrefix: string :=
    "Create a visually appealing and professional app logo concept based on the following idea:\n\n"
  const PromptSuffix: string := "\n\nUse a clean, minimal, modern style."

  /** What comes before and after the description in the prompt. */
  const PromptHead: string := PromptPrefix + "'"
  const PromptTail: string := "'" + PromptSuffix

  /** `make_visual_prompt`: the fixed prefix, the description in single quotes, the fixed
      suffix. The description appears verbatim between the two. */
  function MakeVisualPrompt(description: string): (prompt: string)
    ensures |prompt| == |PromptHead| + |description| + |PromptTail|
    ensures prompt[..|PromptHead|] == PromptHead
    ensures prompt[|PromptHead|..|PromptHead| + |description|] == description
    ensures prompt[|PromptHead| + |description|..] == PromptTail
  {
    PromptHead + description + PromptTail
  }

  /** Reads the description back out of a prompt: the text between the head and the tail,
      or None for a string that is not a prompt. */
  function DescriptionOf(prompt: string): (d: Option<string>)
    ensures d.Some? ==> MakeVisualPrompt(d.value) == prompt
  {
    var h, t := |PromptHead|, |PromptTail|;
    if |prompt| >= h + t && prompt[..h] == PromptHead && prompt[|prompt| - t..] == PromptTail then
      var d := prompt[h..|prompt| - t];
      assert prompt == PromptHead + d + PromptTail;
      Some(d)
    else None
  }

  /** The description is recovered from its prompt. */
  lemma PromptRoundTrip(description: string)
    ensures DescriptionOf(MakeVisualPrompt(description)) == Some(description)
  {
  }

  /** Different descriptions give different prompts. */
  lemma PromptInjective(a: string, b: string)
    requires MakeVisualPrompt(a) == MakeVisualPrompt(b)
    ensures a == b
  {
  }

  /** The body of the request: unreadable (`get_json` or `.get` raises, with the given
      text), or read, with the `description` string if present. */
  datatype RequestData = Unreadable(reason: string) | Body(description: Option<string>)

  /** One part of the model's first candidate; `inlineData` is the inline data's payload,
      when the part has inline data. */
  datatype Part = Part(inlineData: Option<string>)

  /** What the model call produced: an exception with its text, or the parts of the first
      candidate. */
  datatype ModelReply = ModelRaised(reason: string) | ModelParts(parts: seq<Part>)

  /** A Flask answer: the status and the JSON object sent. */
  datatype FlaskResponse = FlaskResponse(status: int, body: map<string, string>)

  const ErrorKey: string := "error"
  const MessageKey: string := "message"
  const Base64Key: string := "base64"
  const PromptKey: string := "prompt"
  const MissingDescription: string := "Missing 'description'"
  const NoImageFound: string := "No image found in response"
  const GenerationSuccessful: string := "Image generation successful"

  /** The payload of the first part with inline data, if any. */
  function FirstInline(parts: seq<Part>): (r: Option<string>)
    ensures r.None? <==> forall i :: 0 <= i < |parts| ==> parts[i].inlineData.None?
    ensures r.Some? ==> exists i :: 0 <= i < |parts| && parts[i].inlineData == r &&
                                    forall j :: 0 <= j < i ==> parts[j].inlineData.None?
  {
    if parts == [] then None
    else if parts[0].inlineData.Some? then parts[0].inlineData
    else
      var r := FirstInline(parts[1..]);
      assert r.Some? ==> exists i :: 1 <= i < |parts| && parts[i].inlineData == r &&
                                     forall j :: 0 <= j < i ==> parts[j].inlineData.None? by {
        if r.Some? {
          var i :| 0 <= i < |parts[1..]| && parts[1..][i].inlineData == r &&
                   forall j :: 0 <= j < i ==> parts[1..][j].inlineData.None?;
          assert forall j :: 0 <= j < i + 1 ==> parts[j].inlineData.None? by {
            forall j | 0 <= j < i + 1 ensures parts[j].inlineData.None? {
              if j > 0 { assert parts[j] == parts[1..][j - 1]; }
            }
          }
        }
      }
      r
  }

  /** Parts after the first one with inline data are never looked at. */
  lemma {:induction false} FirstInlineIgnoresLater(parts: seq<Part>, later: seq<Part>)
    requires FirstInline(parts).Some?
    ensures FirstInline(parts + later) == FirstInline(parts)
  {
    if parts[0].inlineData.None? {
      assert (parts + later)[1..] == parts[1..] + later;
      FirstInlineIgnoresLater(parts[1..], later);
    }
  }

  /** The answer of `generate_image`. */
  function GenerateResponse(request: RequestData, reply: ModelReply): (r: FlaskResponse)
    ensures r.status == 200 || r.status == 400 || r.status == 500
    ensures r.status == 400 <==> request.Body? && (request.description.None? || request.description.value == "")
    ensures r.status == 400 ==> r.body == map[ErrorKey := MissingDescription]
    ensures r.status == 200 <==>
      && request.Body? && request.description.Some? && request.description.value != ""
      && reply.ModelParts? && FirstInline(reply.parts).Some? && FirstInline(reply.parts).value != ""
    ensures r.status == 200 ==>
      r.body == map[MessageKey := GenerationSuccessful,
                    Base64Key := FirstInline(reply.parts).value,
                    PromptKey := MakeVisualPrompt(request.description.value)]
    ensures r.status == 500 ==> ErrorKey in r.body && r.body.Keys == {ErrorKey}
    ensures && request.Body? && request.description.Some? && request.description.value != ""
            && reply.ModelParts? && (FirstInline(reply.parts).None? || FirstInline(reply.parts).value == "")
            ==> r == FlaskResponse(500, map[ErrorKey := NoImageFound])
  {
    match request
    case Unreadable(reason) => FlaskResponse(500, map[ErrorKey := reason])
    case Body(description) =>
      if description.None? || description.value == "" then FlaskResponse(400, map[ErrorKey := MissingDescription])
      else
        match reply
        case ModelRaised(reason) => FlaskResponse(500, map[ErrorKey := reason])
        case ModelParts(parts) =>
          var image := FirstInline(parts);
          if image.None? || image.value == "" then FlaskResponse(500, map[ErrorKey := NoImageFound])
          else FlaskResponse(200, map[MessageKey := GenerationSuccessful, Base64Key := image.value,
                                      PromptKey := MakeVisualPrompt(description.value)])
  }

  /** A missing or empty description is answered without the model: whatever the model
      would reply, the answer is the same 400. */
  lemma MissingDescriptionIgnoresModel(request: RequestData, reply1: ModelReply, reply2: ModelReply)
    requires request.Body? && (request.description.None? || request.description.value == "")
    ensures GenerateResponse(request, reply1) == GenerateResponse(request, reply2)
    ensures GenerateResponse(request, reply1).body[ErrorKey] == MissingDescription
  {
  }

  /** An exception from reading the body or from the model is answered with its text. */
  lemma ExceptionTextReturned(request: RequestData, reply: ModelReply)
    requires request.Unreadable? || (request.Body? && request.description.Some? &&
                                     request.description.value != "" && reply.ModelRaised?)
    ensures var r := GenerateResponse(request, reply);
      r.status == 500 && r.body[ErrorKey] == (if request.Unreadable? then request.reason else reply.reason)
  {
  }

  /** `generate_image`: the guard, the prompt, the model call, the loop that takes the first
      part with inline data (trying to save it to disk) and stops, then the status branch.
      `saveSucceeds` is whether decoding and saving the image works; it decides only
      whether the file is written, never the answer. */
  method GenerateImage(request: RequestData, reply: ModelReply, saveSucceeds: bool)
    returns (r: FlaskResponse, saved: bool)
    ensures r == GenerateResponse(request, reply)
    ensures saved <==>
      && saveSucceeds && request.Body? && request.description.Some? && request.description.value != ""
      && reply.ModelParts? && FirstInline(reply.parts).Some?
  {
    saved := false;
    if request.Unreadable? {
      return FlaskResponse(500, map[ErrorKey := request.reason]), saved;
    }
    var description := request.description;
    if description.None? || description.value == "" {
      return FlaskResponse(400, map[ErrorKey := MissingDescription]), saved;
    }
    var prompt := MakeVisualPrompt(description.value);
    if reply.ModelRaised? {
      return FlaskResponse(500, map[ErrorKey := reply.reason]), saved;
    }
    var parts := reply.parts;
    var imageBase64: Option<string> := None;
    var i := 0;
    while i < |parts|
      invariant 0 <= i <= |parts|
      invariant imageBase64.None? && !saved
      invariant forall j :: 0 <= j < i ==> parts[j].inlineData.None?
      decreases |parts| - i
    {
      if parts[i].inlineData.Some? {
        imageBase64 := parts[i].inlineData;
        saved := saveSucceeds;
        break;
      }
      i := i + 1;
    }
    assert imageBase64 == FirstInline(parts);
    if imageBase64.None? || imageBase64.value == "" {
      return FlaskResponse(500, map[ErrorKey := NoImageFound]), saved;
    }
    r := FlaskResponse(200, map[MessageKey := GenerationSuccessful, Base64Key := imageBase64.value,
                                PromptKey := prompt]);
  }
}
